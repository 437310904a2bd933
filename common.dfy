/**
 * Shared vocabulary of the nanolay model: the integer widths of the XC16
 * compiler for the dsPIC33CK (int and uint_fast16_t are 16 bits,
 * uint_fast32_t is 32 bits, unsigned long long is 64 bits), an Option type,
 * and the identifiers that stand for the user's callback functions.
 */
module Common {

  type u8 = x: int | 0 <= x < 0x100
  type u16 = x: int | 0 <= x < 0x1_0000
  type u32 = x: int | 0 <= x < 0x1_0000_0000
  type u64 = x: int | 0 <= x < 0x1_0000_0000_0000_0000

  const TwoTo16: int := 0x1_0000
  const TwoTo32: int := 0x1_0000_0000
  const TwoTo64: int := 0x1_0000_0000_0000_0000

  /** An interrupt priority field (TxIP, CCTxIP, ...) is three bits wide. */
  type Priority = x: int | 0 <= x < 8

  /**
   * Writing a uint_fast8_t into a three-bit IPC field keeps its low three
   * bits; the library documents 1-7 and does not check.
   */
  function PriorityField(p: u8): (r: Priority)
    ensures 1 <= p <= 7 ==> r == p
    ensures (r - p) % 8 == 0
  {
    p % 8
  }

  /**
   * A user callback. In C it is a `void (*)(void)`; the model only needs to
   * know which callback was called, so each one is a number.
   */
  type HandlerId = nat

  datatype Option<+T> = None | Some(value: T)

  /** Quotient and remainder are determined by x == q * k + r with 0 <= r < k. */
  lemma DivModUnique(x: nat, k: nat, q: nat, r: nat)
    requires 0 <= r < k && x == q * k + r
    ensures x / k == q && x % k == r
  {
    var q', r' := x / k, x % k;
    if q' > q {
      MulAtLeast(q' - q, k);
    } else if q' < q {
      MulAtLeast(q - q', k);
    }
  }

  lemma MulAtLeast(a: nat, b: nat)
    requires a >= 1
    ensures a * b >= b
  {
  }

  /** Adding one commutes with reduction modulo m. */
  lemma AddOneMod(a: nat, m: nat)
    requires m > 0
    ensures (a % m + 1) % m == (a + 1) % m
  {
    var q, r := a / m, a % m;
    if r + 1 < m {
      DivModUnique(a + 1, m, q, r + 1);
      DivModUnique(r + 1, m, 0, r + 1);
    } else {
      DivModUnique(a + 1, m, q + 1, 0);
      DivModUnique(r + 1, m, 1, 0);
    }
  }

  /** The call log of a callback that fired n times in a row. */
  function Repeat(h: HandlerId, n: nat): (r: seq<HandlerId>)
    ensures |r| == n
    ensures forall i :: 0 <= i < n ==> r[i] == h
  {
    if n == 0 then [] else Repeat(h, n - 1) + [h]
  }
}
