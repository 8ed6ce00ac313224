/**
 * Shared value types of the model: optional values, results, the machine
 * integer widths the Rust source uses, and decimal rendering of numbers
 * (the `{}` formatting of an integer).
 */
module Base {

  datatype Option<T> = None | Some(value: T)

  datatype Result<T, E> = Ok(value: T) | Err(error: E)

  /** Rust's unit type `()`, the payload of an `Ok(())`. */
  datatype Unit = Unit

  type u8 = x: int | 0 <= x < 0x100
  type u16 = x: int | 0 <= x < 0x1_0000
  type u32 = x: int | 0 <= x < 0x1_0000_0000
  type u64 = x: int | 0 <= x < 0x1_0000_0000_0000_0000
  type i64 = x: int | -0x8000_0000_0000_0000 <= x < 0x8000_0000_0000_0000

  /** The targets are 64-bit, so `usize` has the width of `u64`. */
  const USIZE_MAX: nat := 0xFFFF_FFFF_FFFF_FFFF

  function Min(a: int, b: int): int { if a <= b then a else b }

  function Max(a: int, b: int): int { if a >= b then a else b }

  function MaxReal(a: real, b: real): real { if a >= b then a else b }

  function MinReal(a: real, b: real): real { if a <= b then a else b }

  /** `a.saturating_sub(b)` on unsigned integers. */
  function SaturatingSub(a: nat, b: nat): (r: nat)
    ensures r == if a >= b then a - b else 0
    ensures r <= a
  {
    if a >= b then a - b else 0
  }

  /** `x as u64` applied to an `i64`: two's complement reinterpretation. */
  function I64AsU64(x: i64): (r: u64)
    ensures 0 <= x ==> r == x
    ensures x < 0 ==> r == x + 0x1_0000_0000_0000_0000
  {
    if x < 0 then x + 0x1_0000_0000_0000_0000 else x
  }

  /** `fetch_add(1)` on an `AtomicUsize`: wraps to 0 past `USIZE_MAX`. */
  function WrappingIncrement(n: u64): (r: u64)
    ensures n < USIZE_MAX ==> r == n + 1
    ensures n == USIZE_MAX ==> r == 0
  {
    (n + 1) % 0x1_0000_0000_0000_0000
  }

  function DigitChar(d: nat): (c: char)
    requires d < 10
    ensures '0' <= c <= '9' && c as int - '0' as int == d
  {
    ('0' as int + d) as char
  }

  /** Decimal rendering of a natural number, as `format!("{}", n)` prints it. */
  function NatToString(n: nat): (s: string)
    ensures |s| >= 1
    ensures forall i :: 0 <= i < |s| ==> '0' <= s[i] <= '9'
    ensures n < 10 <==> |s| == 1
    decreases n
  {
    if n < 10 then [DigitChar(n)] else NatToString(n / 10) + [DigitChar(n % 10)]
  }

  /** The value a string of decimal digits denotes. */
  function DecimalValue(s: string): nat
    requires forall i :: 0 <= i < |s| ==> '0' <= s[i] <= '9'
  {
    if s == [] then 0 else DecimalValue(s[..|s| - 1]) * 10 + (s[|s| - 1] as int - '0' as int)
  }

  /** Rendering a number and reading it back gives the number again. */
  lemma {:induction false} NatToStringRoundTrip(n: nat)
    ensures DecimalValue(NatToString(n)) == n
    decreases n
  {
    if n >= 10 {
      NatToStringRoundTrip(n / 10);
      var s := NatToString(n);
      assert s[..|s| - 1] == NatToString(n / 10);
      assert s[|s| - 1] == DigitChar(n % 10);
    }
  }

  /** The strings of `ls` written one after another. */
  function Concat(ls: seq<string>): string
    decreases |ls|
  {
    if ls == [] then "" else Concat(ls[..|ls| - 1]) + ls[|ls| - 1]
  }

  /** Concatenating two runs of strings concatenates their concatenations. */
  lemma {:induction false} ConcatAppend(x: seq<string>, y: seq<string>)
    ensures Concat(x + y) == Concat(x) + Concat(y)
    decreases |y|
  {
    if y == [] {
      assert x + y == x;
    } else {
      var n := |y| - 1;
      ConcatAppend(x, y[..n]);
      assert (x + y)[..|x| + n] == x + y[..n];
      assert (x + y)[|x| + n] == y[n];
      var a, b, c := Concat(x), Concat(y[..n]), y[n];
      assert (a + b) + c == a + (b + c);
    }
  }

  /** Empty strings concatenate to the empty string. */
  lemma {:induction false} ConcatNone(ls: seq<string>)
    requires forall k :: 0 <= k < |ls| ==> ls[k] == ""
    ensures Concat(ls) == ""
    decreases |ls|
  {
    if ls != [] {
      var n := |ls| - 1;
      assert forall k :: 0 <= k < n ==> ls[..n][k] == ls[k];
      ConcatNone(ls[..n]);
    }
  }

  /** When every string but the `k`-th is empty, the concatenation is that string. */
  lemma {:induction false} ConcatOnly(ls: seq<string>, k: nat)
    requires k < |ls|
    requires forall j :: 0 <= j < |ls| && j != k ==> ls[j] == ""
    ensures Concat(ls) == ls[k]
    decreases |ls|
  {
    var n := |ls| - 1;
    assert forall j :: 0 <= j < n ==> ls[..n][j] == ls[j];
    if k == n {
      ConcatNone(ls[..n]);
      assert "" + ls[n] == ls[n];
    } else {
      ConcatOnly(ls[..n], k);
      assert ls[n] == "" && ls[k] + "" == ls[k];
    }
  }
}
