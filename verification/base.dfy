/** Small shared vocabulary, and the one query shape the repositories share:
    SELECT ... ORDER BY key LIMIT n. */
module Base {
  datatype Option<+T> = None | Some(value: T)

  /** Seconds on some clock. */
  type Time = int

  function Elements<T(==)>(s: seq<T>): set<T> { set x | x in s }

  /** What ORDER BY key LIMIT limit may answer: ties are broken arbitrarily. */
  ghost predicate IsOldestFirst<T(!new)>(pool: set<T>, key: T -> Time, limit: nat, s: seq<T>)
  {
    && (forall i :: 0 <= i < |s| ==> s[i] in pool)
    && (forall i, j :: 0 <= i < j < |s| ==> s[i] != s[j] && key(s[i]) <= key(s[j]))
    && |s| == (if |pool| < limit then |pool| else limit)
    && (forall x, i :: x in pool && x !in s && 0 <= i < |s| ==> key(s[i]) <= key(x))
  }

  lemma SameOrder<T(!new)>(pool: set<T>, key: T -> Time, key': T -> Time, limit: nat, s: seq<T>)
    requires IsOldestFirst(pool, key, limit, s) && forall x :: x in pool ==> key(x) == key'(x)
    ensures IsOldestFirst(pool, key', limit, s)
  {
    assert forall i :: 0 <= i < |s| ==> s[i] in pool;
  }

  lemma OldestExists<T>(pool: set<T>, key: T -> Time)
    requires pool != {}
    ensures exists x :: x in pool && forall y :: y in pool ==> key(x) <= key(y)
    decreases |pool|
  {
    var x :| x in pool;
    var rest := pool - {x};
    if rest != {} {
      OldestExists(rest, key);
      var m :| m in rest && forall y :: y in rest ==> key(m) <= key(y);
      assert forall y :: y in pool ==> y == x || y in rest;
      var least := if key(x) <= key(m) then x else m;
      assert least in pool && forall y :: y in pool ==> key(least) <= key(y);
    } else {
      assert pool == {x};
    }
  }

  lemma DistinctCount<T>(s: seq<T>)
    requires forall i, j :: 0 <= i < j < |s| ==> s[i] != s[j]
    ensures |Elements(s)| == |s|
  {
    if s != [] {
      var front, last := s[..|s| - 1], s[|s| - 1];
      DistinctCount(front);
      assert Elements(s) == Elements(front) + {last};
      assert last !in front;
    }
  }

  predicate AllDistinct<T(==)>(s: seq<T>) { forall i, j :: 0 <= i < j < |s| ==> s[i] != s[j] }

  lemma TakeOneMore<T>(s: seq<T>, i: nat)
    requires i < |s|
    ensures s[..i + 1] == s[..i] + [s[i]]
  {
  }

  lemma SplitLast<T>(s: seq<T>)
    requires s != [] && AllDistinct(s)
    ensures var front, last := s[..|s| - 1], s[|s| - 1];
      && AllDistinct(front) && last !in front && last in s && (forall x :: x in front ==> x in s)
      && Elements(s) == Elements(front) + {last}
  {
    TakeOneMore(s, |s| - 1);
    assert s[..|s|] == s;
  }

  lemma Exhausted<T>(pool: set<T>, s: seq<T>, rest: set<T>)
    requires forall i, j :: 0 <= i < j < |s| ==> s[i] != s[j]
    requires forall i :: 0 <= i < |s| ==> s[i] in pool
    requires rest == pool - Elements(s)
    ensures |pool| == |s| + |rest|
  {
    DistinctCount(s);
    var taken := Elements(s);
    assert taken <= pool && rest !! taken && pool == taken + rest;
  }

  /** Distinct elements of a pool, as many as it has, are all of it. */
  lemma AllTaken<T>(pool: set<T>, s: seq<T>)
    requires forall i :: 0 <= i < |s| ==> s[i] in pool
    requires forall i, j :: 0 <= i < j < |s| ==> s[i] != s[j]
    requires |s| == |pool|
    ensures forall x :: x in pool ==> x in s
  {
    var taken := Elements(s);
    Exhausted(pool, s, pool - taken);
    assert |pool - taken| == 0;
  }

  lemma SubsetSize<T>(a: set<T>, b: set<T>)
    requires a <= b
    ensures |a| <= |b|
  {
    assert b == a + (b - a);
  }

  lemma Overwrite<K, V>(m: map<K, V>, k: K, v: V, w: V)
    ensures m[k := v][k := w] == m[k := w]
  {
  }

  lemma RemoveAdded<K, V>(m: map<K, V>, k: K, v: V)
    requires k !in m
    ensures m[k := v] - {k} == m
  {
  }

  /** k * n, added up. */
  function Times(k: nat, n: nat): nat
    decreases k
  {
    if k == 0 then 0 else Times(k - 1, n) + n
  }

  lemma {:induction false} TimesIsProduct(k: nat, n: nat)
    ensures Times(k, n) == k * n
    decreases k
  {
    if k > 0 {
      TimesIsProduct(k - 1, n);
      assert (k - 1) * n + n == k * n;
    }
  }

  lemma {:induction false} TimesMonotone(a: nat, b: nat, n: nat)
    requires a <= b
    ensures Times(a, n) <= Times(b, n)
    decreases b
  {
    if a < b { TimesMonotone(a, b - 1, n); }
  }

  lemma QuotientIsClose(p: nat, n: nat)
    requires n > 0
    ensures p < (p / n) * n + n
  {
  }

  lemma {:induction false} BeyondQuotient(p: nat, k: nat, n: nat)
    requires n > 0 && k > p / n
    ensures Times(k, n) > p
  {
    var q := p / n;
    assert p < Times(q, n) + n by {
      QuotientIsClose(p, n);
      TimesIsProduct(q, n);
    }
    TimesMonotone(q + 1, k, n);
  }

  function Pow2(n: nat): nat { if n == 0 then 1 else 2 * Pow2(n - 1) }

  ghost predicate NoneSmaller<T(!new)>(rest: set<T>, key: T -> Time, s: seq<T>)
  {
    forall x, i :: x in rest && 0 <= i < |s| ==> key(s[i]) <= key(x)
  }

  ghost predicate Selected<T(!new)>(pool: set<T>, rest: set<T>, key: T -> Time, s: seq<T>)
  {
    && (forall i :: 0 <= i < |s| ==> s[i] in pool)
    && rest == pool - Elements(s)
    && (forall i, j :: 0 <= i < j < |s| ==> s[i] != s[j] && key(s[i]) <= key(s[j]))
    && NoneSmaller(rest, key, s)
  }

  lemma SelectNext<T(!new)>(pool: set<T>, rest: set<T>, key: T -> Time, s: seq<T>, next: T)
    requires Selected(pool, rest, key, s) && next in rest && forall y :: y in rest ==> key(next) <= key(y)
    ensures Selected(pool, rest - {next}, key, s + [next])
  {
    assert next !in s;
    forall i, j | 0 <= i < j < |s| + 1
      ensures (s + [next])[i] != (s + [next])[j] && key((s + [next])[i]) <= key((s + [next])[j])
    {
    }
  }

  /** Some answer always exists. */
  lemma {:induction false} AnswerExists<T(!new)>(pool: set<T>, key: T -> Time, limit: nat) returns (s: seq<T>)
    ensures IsOldestFirst(pool, key, limit, s)
    decreases limit
  {
    if limit == 0 || pool == {} {
      s := [];
    } else {
      OldestExists(pool, key);
      var first :| first in pool && forall y :: y in pool ==> key(first) <= key(y);
      var rest := AnswerExists(pool - {first}, key, limit - 1);
      s := [first] + rest;
      FirstThenRest(pool, key, limit, first, rest);
    }
  }

  lemma FirstThenRest<T(!new)>(pool: set<T>, key: T -> Time, limit: nat, first: T, rest: seq<T>)
    requires limit > 0 && first in pool && forall y :: y in pool ==> key(first) <= key(y)
    requires IsOldestFirst(pool - {first}, key, limit - 1, rest)
    ensures IsOldestFirst(pool, key, limit, [first] + rest)
  {
    var s := [first] + rest;
    assert |pool - {first}| == |pool| - 1;
    forall i, j | 0 <= i < j < |s| ensures s[i] != s[j] && key(s[i]) <= key(s[j]) {
      assert s[j] == rest[j - 1] && rest[j - 1] in pool - {first};
      if i > 0 { assert s[i] == rest[i - 1]; }
    }
    forall x, i | x in pool && x !in s && 0 <= i < |s| ensures key(s[i]) <= key(x) {
      assert s[0] == first && x != first;
      if i > 0 { assert s[i] == rest[i - 1] && x !in rest; }
    }
  }

  lemma SelectedIsAnswer<T(!new)>(pool: set<T>, rest: set<T>, key: T -> Time, limit: nat, s: seq<T>)
    requires Selected(pool, rest, key, s) && |s| <= limit && (|s| == limit || rest == {})
    ensures IsOldestFirst(pool, key, limit, s)
  {
    Exhausted(pool, s, rest);
    assert forall x :: x in pool && x !in s ==> x in rest;
  }

  /** An answer under a finer key is an answer. */
  lemma FinerKey<T(!new)>(pool: set<T>, key: T -> Time, finer: T -> Time, limit: nat, s: seq<T>)
    requires IsOldestFirst(pool, finer, limit, s)
    requires forall x, y :: x in pool && y in pool && finer(x) <= finer(y) ==> key(x) <= key(y)
    ensures IsOldestFirst(pool, key, limit, s)
  {
    assert forall i :: 0 <= i < |s| ==> s[i] in pool;
  }

  /** Whatever is taken has fewer than `limit` strictly before it ... */
  lemma TakenHasFewBefore<T(!new)>(
    pool: set<T>, key: T -> Time, limit: nat, s: seq<T>, x: T, before: set<T>)
    requires IsOldestFirst(pool, key, limit, s) && x in s
    requires before <= pool && forall y :: y in before ==> key(y) < key(x)
    ensures |before| < limit
  {
    var i :| 0 <= i < |s| && s[i] == x;
    var earlier := s[..i];
    assert before <= Elements(earlier) by {
      forall y | y in before ensures y in earlier {
        var j :| 0 <= j < |s| && s[j] == y;
        assert j < i;
      }
    }
    DistinctCount(earlier);
    SubsetSize(before, Elements(earlier));
  }

  /** ... and whatever is left out has `limit` taken that are not after it. */
  lemma LeftHasManyBefore<T(!new)>(pool: set<T>, key: T -> Time, limit: nat, s: seq<T>, x: T)
    requires IsOldestFirst(pool, key, limit, s) && x in pool && x !in s
    ensures |Elements(s)| == limit
    ensures forall y :: y in s ==> y in pool && y != x && key(y) <= key(x)
  {
    if |s| == |pool| { AllTaken(pool, s); }
    DistinctCount(s);
  }

  /** The query itself, as repeated selection of a least remaining element. */
  method OldestFirst<T(!new, ==)>(pool: set<T>, key: T -> Time, limit: nat) returns (s: seq<T>)
    ensures IsOldestFirst(pool, key, limit, s)
  {
    s := [];
    var rest := pool;
    while |s| < limit && rest != {}
      invariant |s| <= limit && Selected(pool, rest, key, s)
      decreases |rest|
    {
      OldestExists(rest, key);
      var next :| next in rest && forall y :: y in rest ==> key(next) <= key(y);
      SelectNext(pool, rest, key, s, next);
      s, rest := s + [next], rest - {next};
    }
    SelectedIsAnswer(pool, rest, key, limit, s);
  }
}
