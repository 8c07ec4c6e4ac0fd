/** Small shared vocabulary: optional values, bytes and a few real/int helpers. */
module Common {

  /** A value that may be absent (Python's `None`). */
  datatype Option<T> = None | Some(value: T) {
    function GetOr(default: T): T {
      match this
      case Some(v) => v
      case None => default
    }
  }

  /** The outcome of an operation that can raise: `Done`, or the error the source raises or returns. */
  datatype Status = Done | Error(message: string)

  /** An 8-bit byte, as found in a decoded PCM payload. */
  newtype byte = x: int | 0 <= x < 256

  function Min(a: int, b: int): int { if a <= b then a else b }

  function RealMin(a: real, b: real): real { if a <= b then a else b }

  function RealMax(a: real, b: real): real { if a >= b then a else b }

  function Abs(x: real): real { if x < 0.0 then -x else x }

  /** A quotient by a positive divisor lies between `lo` and `hi` when the dividend lies between their multiples. */
  lemma QuotientBetween(x: real, d: real, lo: real, hi: real)
    requires d > 0.0 && d * lo <= x <= d * hi
    ensures lo <= x / d <= hi
  {
    var q := x / d;
    assert x == d * q;
    assert d * (q - lo) >= 0.0 && d * (hi - q) >= 0.0;
  }

  /** The last `n` elements of `s` (all of `s` when it is shorter): Python's `s[-n:]` for n > 0. */
  function Last<T>(s: seq<T>, n: nat): (r: seq<T>)
    ensures |r| == Min(n, |s|)
    ensures forall j :: 0 <= j < |r| ==> r[j] == s[|s| - |r| + j]
  {
    if |s| <= n then s else s[|s| - n..]
  }
}
