/** Sequence and map helpers shared by the screens: the JavaScript
    `Array.prototype.filter`, `join`, and the `{...prev, [k]: !prev[k]}` toggle. */
module Collections {

  /** `r` occurs in `s` in order, possibly with gaps (greedy matching is complete). */
  predicate IsSubsequence<T(==)>(r: seq<T>, s: seq<T>)
    decreases |s|
  {
    if r == [] then true
    else if s == [] then false
    else if r[0] == s[0] then IsSubsequence(r[1..], s[1..])
    else IsSubsequence(r, s[1..])
  }

  lemma {:induction false} IsSubsequenceRefl<T>(s: seq<T>)
    ensures IsSubsequence(s, s)
  {
    if s != [] {
      IsSubsequenceRefl(s[1..]);
    }
  }

  /** Every element of a subsequence is an element of the whole. */
  lemma {:induction false} SubsequenceMembers<T>(r: seq<T>, s: seq<T>)
    requires IsSubsequence(r, s)
    ensures forall i :: 0 <= i < |r| ==> r[i] in s
    decreases |s|
  {
    if r != [] && s != [] {
      if r[0] == s[0] {
        SubsequenceMembers(r[1..], s[1..]);
        assert forall i :: 1 <= i < |r| ==> r[i] == r[1..][i - 1];
      } else {
        SubsequenceMembers(r, s[1..]);
      }
    }
  }

  /** `s.filter(p)`: keeps exactly the elements satisfying `p`, in their original order. */
  function Filter<T(==)>(s: seq<T>, p: T -> bool): (r: seq<T>)
    ensures |r| <= |s|
    ensures forall i :: 0 <= i < |r| ==> p(r[i])
    ensures IsSubsequence(r, s)
  {
    if s == [] then []
    else if p(s[0]) then
      var rest := Filter(s[1..], p);
      assert ([s[0]] + rest)[1..] == rest;
      [s[0]] + rest
    else
      var rest := Filter(s[1..], p);
      assert rest != [] ==> p(rest[0]);
      rest
  }

  /** Nothing that passes the test is dropped. */
  lemma {:induction false} FilterComplete<T>(s: seq<T>, p: T -> bool)
    ensures forall i :: 0 <= i < |s| && p(s[i]) ==> s[i] in Filter(s, p)
  {
    if s != [] {
      FilterComplete(s[1..], p);
      var r, rest := Filter(s, p), Filter(s[1..], p);
      forall i | 0 <= i < |s| && p(s[i]) ensures s[i] in r {
        if i == 0 {
          assert r[0] == s[0];
        } else {
          assert s[i] == s[1..][i - 1];
          assert s[i] in rest;
          if p(s[0]) {
            assert r == [s[0]] + rest;
          }
        }
      }
    }
  }

  /** Each value that passes the test is kept as often as it occurs, and every
      other value is dropped: together with the order, this fixes the result. */
  lemma {:induction false} FilterCount<T>(s: seq<T>, p: T -> bool)
    ensures forall x :: multiset(Filter(s, p))[x] == if p(x) then multiset(s)[x] else 0
  {
    if s != [] {
      FilterCount(s[1..], p);
      assert s == [s[0]] + s[1..];
      assert multiset(s) == multiset{s[0]} + multiset(s[1..]);
      if p(s[0]) {
        assert Filter(s, p) == [s[0]] + Filter(s[1..], p);
        assert multiset(Filter(s, p)) == multiset{s[0]} + multiset(Filter(s[1..], p));
      }
    }
  }

  lemma {:induction false} FilterAppend<T>(a: seq<T>, b: seq<T>, p: T -> bool)
    ensures Filter(a + b, p) == Filter(a, p) + Filter(b, p)
  {
    if a == [] {
      assert a + b == b;
    } else {
      assert (a + b)[0] == a[0];
      assert (a + b)[1..] == a[1..] + b;
      FilterAppend(a[1..], b, p);
    }
  }

  /** When only the elements of `s[lo..hi]` can pass, filtering `s` is filtering
      that slice. */
  lemma FilterMiddle<T>(s: seq<T>, lo: nat, hi: nat, p: T -> bool)
    requires lo <= hi <= |s|
    requires forall i :: 0 <= i < |s| && !(lo <= i < hi) ==> !p(s[i])
    ensures Filter(s, p) == Filter(s[lo..hi], p)
  {
    FilterDropsSuffix(s, hi, p);
    var u := s[..hi];
    FilterDropsPrefix(u, lo, p);
    assert u[lo..] == s[lo..hi];
  }

  /** Elements before `lo` that fail the test do not change the filtered result. */
  lemma {:induction false} FilterDropsPrefix<T>(s: seq<T>, lo: nat, p: T -> bool)
    requires lo <= |s|
    requires forall i :: 0 <= i < lo ==> !p(s[i])
    ensures Filter(s, p) == Filter(s[lo..], p)
  {
    if lo > 0 {
      FilterDropsPrefix(s[1..], lo - 1, p);
      assert s[1..][lo - 1..] == s[lo..];
    }
  }

  /** Elements from `hi` on that fail the test do not change the filtered result. */
  lemma FilterDropsSuffix<T>(s: seq<T>, hi: nat, p: T -> bool)
    requires hi <= |s|
    requires forall i :: hi <= i < |s| ==> !p(s[i])
    ensures Filter(s, p) == Filter(s[..hi], p)
  {
    var b := s[hi..];
    assert s == s[..hi] + b;
    forall i | 0 <= i < |b| ensures !p(b[i]) {
      assert b[i] == s[hi + i];
    }
    FilterAppend(s[..hi], b, p);
    FilterDropsAll(b, p);
  }

  /** Filtering a sequence whose elements all pass is the identity. */
  lemma {:induction false} FilterKeepsAll<T>(s: seq<T>, p: T -> bool)
    requires forall i :: 0 <= i < |s| ==> p(s[i])
    ensures Filter(s, p) == s
  {
    if s != [] {
      FilterKeepsAll(s[1..], p);
    }
  }

  /** Filtering a sequence none of whose elements pass gives the empty sequence. */
  lemma {:induction false} FilterDropsAll<T>(s: seq<T>, p: T -> bool)
    requires forall i :: 0 <= i < |s| ==> !p(s[i])
    ensures Filter(s, p) == []
  {
    if s != [] {
      FilterDropsAll(s[1..], p);
    }
  }

  /** Two tests that agree on every element filter alike. */
  lemma {:induction false} FilterAgree<T>(s: seq<T>, p: T -> bool, q: T -> bool)
    requires forall i :: 0 <= i < |s| ==> p(s[i]) == q(s[i])
    ensures Filter(s, p) == Filter(s, q)
  {
    if s != [] {
      FilterAgree(s[1..], p, q);
    }
  }

  /** `parts.join('')`. */
  function Concat<T>(parts: seq<seq<T>>): seq<T>
  {
    if parts == [] then [] else parts[0] + Concat(parts[1..])
  }

  /** `parts.join(sep)`. */
  function Join<T>(parts: seq<seq<T>>, sep: T): seq<T>
  {
    if parts == [] then []
    else if |parts| == 1 then parts[0]
    else parts[0] + [sep] + Join(parts[1..], sep)
  }

  /** `{...m, [k]: !m[k]}` where an absent key reads as false. */
  function Toggle<K>(m: map<K, bool>, k: K): (r: map<K, bool>)
    ensures r.Keys == m.Keys + {k}
    ensures r[k] == !(k in m && m[k])
    ensures forall j :: j in m && j != k ==> r[j] == m[j]
  {
    m[k := !(k in m && m[k])]
  }

  /** Toggling a present key twice restores the map; toggling an absent key twice
      leaves it present and false. */
  lemma ToggleTwice<K>(m: map<K, bool>, k: K)
    ensures k in m ==> Toggle(Toggle(m, k), k) == m
    ensures k !in m ==> Toggle(Toggle(m, k), k) == m[k := false]
  {
  }
}
