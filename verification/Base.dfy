/** Shared vocabulary: options, bytes, and the time scale.
    A point in time is a natural number of milliseconds; 0 stands for Go's zero `time.Time`,
    which no clock reading before it can precede. */
module Base {

  datatype Option<+T> = None | Some(value: T)

  type byte = b: int | 0 <= b < 256

  type Time = nat

  const SECOND: nat := 1000

  /** Replacing or adding one entry of a finite map moves a filtered key set by at most that key. */
  lemma FilterCardinality<T>(before: set<T>, after: set<T>, t: T)
    requires before - {t} == after - {t}
    ensures |after| == |before| + (if t in after then 1 else 0) - (if t in before then 1 else 0)
  {
    if t in before { assert before == (before - {t}) + {t}; } else { assert before == before - {t}; }
    if t in after { assert after == (after - {t}) + {t}; } else { assert after == after - {t}; }
  }

  lemma TwoElements<T>(s: set<T>, x: T, y: T)
    requires x in s && y in s && x != y
    ensures |s| >= 2
  {
    assert |s - {x}| == |s| - 1 && y in s - {x};
  }

  lemma MultipleAtLeast(k: int, m: int)
    requires k >= 1 && m > 0
    ensures k * m >= m
  {
    assert k * m == (k - 1) * m + m;
  }

  lemma RemainderUnique(x: int, q: int, r: int, m: int)
    requires m > 0 && 0 <= r < m && x == q * m + r
    ensures x % m == r
  {
    var q', r' := x / m, x % m;
    assert x == q' * m + r';
    assert (q - q') * m == r' - r by { assert (q - q') * m == q * m - q' * m; }
    if q > q' {
      MultipleAtLeast(q - q', m);
    } else if q < q' {
      MultipleAtLeast(q' - q, m);
    }
  }

  /** Position `n` steps on from `i` around a circle of `m`. */
  function Turn(i: nat, n: nat, m: nat): (r: nat)
    requires i < m && n <= m
    ensures r < m
  {
    if i + n < m then i + n else i + n - m
  }

  /** Steps from `i` to `j` around a circle of `m`. */
  function Distance(i: nat, j: nat, m: nat): (n: nat)
    requires i < m && j < m
    ensures n < m && Turn(i, n, m) == j
  {
    if j >= i then j - i else j - i + m
  }

  lemma WrapOnce(i: nat, a: nat, m: nat)
    requires i < m && a < m
    ensures (i + a) % m == Turn(i, a, m)
  {
    if i + a < m { RemainderUnique(i + a, 0, i + a, m); } else { RemainderUnique(i + a, 1, i + a - m, m); }
  }
}
