/** What several modules share: optional values, and counting over sets and sequences. */
module Common {

  datatype Option<T> = None | Some(value: T)

  /** 0, 1, ..., n - 1. */
  function Numbers(n: nat): (r: seq<nat>)
    ensures |r| == n && forall i :: 0 <= i < n ==> r[i] == i
  {
    seq(n, i => i)
  }

  /** The numbers below n. */
  function Below(n: nat): (r: set<nat>)
    ensures |r| == n && forall i :: i in r <==> 0 <= i < n
  {
    if n == 0 then {} else Below(n - 1) + {n - 1}
  }

  ghost function Members(s: seq<nat>): set<nat> {
    set x | x in s
  }

  ghost predicate NoDuplicates<T>(s: seq<T>) {
    forall i, j :: 0 <= i < j < |s| ==> s[i] != s[j]
  }

  lemma {:induction false} SubsetSize<T>(a: set<T>, b: set<T>)
    requires a <= b
    ensures |a| <= |b|
  {
    if a != {} {
      var x :| x in a;
      SubsetSize(a - {x}, b - {x});
    }
  }

  lemma {:induction false} MembersSize(s: seq<nat>)
    requires NoDuplicates(s)
    ensures |Members(s)| == |s|
  {
    if s != [] {
      var last := |s| - 1;
      MembersSize(s[..last]);
      assert Members(s) == Members(s[..last]) + {s[last]};
    }
  }

  /** A sequence of distinct numbers below n that misses h is shorter than n. */
  lemma {:induction false} ShorterThan(n: nat, s: seq<nat>, h: nat)
    requires h < n && h !in s && NoDuplicates(s)
    requires forall i :: 0 <= i < |s| ==> s[i] < n
    ensures |s| < n
  {
    MembersSize(s);
    assert Members(s) <= Below(n) - {h};
    SubsetSize(Members(s), Below(n) - {h});
  }

  lemma CountOnce(s: seq<nat>, x: nat)
    requires NoDuplicates(s)
    ensures multiset(s)[x] == if x in s then 1 else 0
  {
    if x in s {
      var i :| 0 <= i < |s| && s[i] == x;
      assert s == s[..i] + [x] + s[i + 1..];
      assert x !in s[..i] && x !in s[i + 1..];
    }
  }

  /** An injection from the numbers below n into a set shows the set has at least n members. */
  lemma {:induction false} Injection<T>(n: nat, f: seq<T>, into: set<T>)
    requires |f| == n && NoDuplicates(f) && forall i :: 0 <= i < n ==> f[i] in into
    ensures n <= |into|
  {
    if n > 0 {
      Injection(n - 1, f[..n - 1], into - {f[n - 1]});
    }
  }

  /** A map that never repeats a value has no more keys than there are values to choose from. */
  lemma {:induction false} InjectiveMap<K, V>(m: map<K, V>, into: set<V>)
    requires forall a, b :: a in m && b in m && a != b ==> m[a] != m[b]
    requires forall a :: a in m ==> m[a] in into
    ensures |m| <= |into|
  {
    if m != map[] {
      var a :| a in m;
      var rest := m - {a};
      assert rest.Keys == m.Keys - {a};
      InjectiveMap(rest, into - {m[a]});
    }
  }

  function Sum(s: seq<nat>): nat {
    if s == [] then 0 else Sum(s[..|s| - 1]) + s[|s| - 1]
  }

  lemma {:induction false} SumUpdate(s: seq<nat>, i: nat, v: nat)
    requires i < |s|
    ensures Sum(s[i := v]) == Sum(s) - s[i] + v
  {
    var last := |s| - 1;
    if i == last {
      assert s[i := v][..last] == s[..last];
    } else {
      SumUpdate(s[..last], i, v);
      assert s[i := v][..last] == s[..last][i := v];
    }
  }

  /** Quotient and remainder are unique. */
  lemma DivUnique(a: nat, n: nat, q: nat, r: nat)
    requires 0 < n && r < n && a == q * n + r
    ensures a / n == q && a % n == r
  {
    var d := a / n - q;
    assert a == (a / n) * n + a % n;
    assert d * n == r - a % n;
    if d >= 1 {
    } else if d <= -1 {
    }
  }
}
