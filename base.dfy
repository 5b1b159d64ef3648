/**
  Shared vocabulary of the tile-pyramid model: optional values and results,
  the errors that can reach the engine, and the handful of Go numeric
  operations whose exact meaning matters (powers of two, `math.Ceil`,
  truncating `int(...)` conversions, Go's `%`).
*/
module Base {

  datatype Option<+T> = None | Some(value: T)

  datatype Result<+T> = Success(value: T) | Failure(error: Error)

  /** Errors that reach the engine.  `GdalError` and `OsError` stand for
      whatever the raster back end or the file system report; `Panic` stands
      for a Go runtime panic (an index out of range, a negative `make`
      length), which stops everything that would have followed it;
      `Undefined` for a step whose effect the language leaves open (a float
      that is infinite or NaN converted to `int`, a native write past the
      end of a Go buffer): the model does not follow the run past it. */
  datatype Error =
    | ErrInputFilename
    | GdalError(code: int)
    | OsError(code: int)
    | Panic(reason: string)
    | Undefined(reason: string)

  /** 2^n, as written `math.Pow(2, float64(n))` and `1 << n` in the source. */
  function Pow2(n: nat): (p: nat)
    ensures p >= 1
    ensures n > 0 ==> p % 2 == 0
  {
    if n == 0 then 1 else 2 * Pow2(n - 1)
  }

  lemma {:induction false} Pow2Monotone(a: nat, b: nat)
    requires a <= b
    ensures Pow2(a) <= Pow2(b)
    decreases b - a
  {
    if a < b {
      Pow2Monotone(a, b - 1);
    }
  }

  /** `math.Ceil` on a real: the least integer not below `r`. */
  function Ceil(r: real): (c: int)
    ensures c as real - 1.0 < r <= c as real
  {
    -((-r).Floor)
  }

  /** Go's `int(f)` for a finite float: truncation toward zero. */
  function Trunc(r: real): (t: int)
    ensures 0.0 <= r ==> 0 <= t && t as real <= r < t as real + 1.0
    ensures r < 0.0 ==> t <= 0 && t as real - 1.0 < r <= t as real
  {
    if r >= 0.0 then r.Floor else -((-r).Floor)
  }

  lemma TruncOfInteger(n: int)
    ensures Trunc(n as real) == n
  {
  }

  lemma TruncMonotone(a: real, b: real)
    requires a <= b
    ensures Trunc(a) <= Trunc(b)
  {
  }

  function AbsInt(a: int): int { if a < 0 then -a else a }

  function AbsReal(r: real): real { if r < 0.0 then -r else r }

  function Max(a: int, b: int): int { if a < b then b else a }

  function Min(a: int, b: int): int { if a < b then a else b }

  /** Go's `a % b`: the remainder takes the sign of the dividend. */
  function GoRem(a: int, b: int): (r: int)
    requires b != 0
    ensures 0 <= a ==> 0 <= r < AbsInt(b)
    ensures a < 0 ==> -AbsInt(b) < r <= 0
    ensures 0 <= a && 0 < b ==> r == a % b
  {
    if a >= 0 then a % AbsInt(b) else -((-a) % AbsInt(b))
  }

  /** Multiplying by a non-negative factor keeps an order. */
  lemma MulLe(a: real, b: real, t: real)
    requires a <= b && t >= 0.0
    ensures a * t <= b * t
  {
    assert (b - a) * t >= 0.0;
  }

  lemma MulStrict(a: real, b: real, t: real)
    requires a < b && t > 0.0
    ensures a * t < b * t
  {
    assert (b - a) * t > 0.0;
  }

  /** Scaling a non-negative size by a ratio in `[0, 1]` and truncating
      gives a size between zero and the original. */
  lemma ScaleDown(a: int, num: int, den: int)
    requires 0 <= a && 0 <= num <= den && den > 0
    ensures 0 <= Trunc(a as real * (num as real / den as real)) <= a
  {
    var q := num as real / den as real;
    assert q * den as real == num as real;
    if q < 0.0 {
      MulStrict(q, 0.0, den as real);
    }
    if 1.0 < q {
      MulStrict(1.0, q, den as real);
    }
    MulLe(0.0, q, a as real);
    MulLe(q, 1.0, a as real);
    assert a as real * q <= a as real;
    TruncOfInteger(a);
    TruncMonotone(a as real * q, a as real);
  }

  lemma MulMono(a: int, b: int, n: nat)
    requires a <= b
    ensures a * n <= b * n
  {
  }

  /** Splitting `q * n + k` with `0 <= k < n` by `n` gives back `q` and `k`. */
  lemma DivModSplit(q: int, n: int, k: int)
    requires 0 <= q && 0 <= k < n
    ensures (q * n + k) / n == q && (q * n + k) % n == k
  {
    var a := q * n + k;
    var d, m := a / n, a % n;
    assert a == d * n + m && 0 <= m < n;
    assert (d - q) * n == k - m;
    if d - q >= 1 {
      MulMono(1, d - q, n);
    }
    if d - q <= -1 {
      MulMono(d - q, -1, n);
    }
  }
}
