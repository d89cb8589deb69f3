/** The leader's commit rule: sort the tracked match indices and take the middle one. */
module CommitRule {

  type MatchMap = map<nat, nat>

  ghost function Reached(m: MatchMap, x: nat): set<nat> {
    ReachedIn(m, m.Keys, x)
  }

  ghost function ReachedIn(m: MatchMap, ks: set<nat>, x: nat): set<nat>
    requires ks <= m.Keys
  {
    set k | k in ks && m[k] >= x
  }

  /** How many of `m` tracked members the rule asks for: m - m/2. */
  function Quorum(m: nat): nat { m - m / 2 }

  /** `c` is the largest index that at least `Quorum(|m|)` tracked members have reached. */
  ghost predicate IsCommitPoint(m: MatchMap, c: nat) {
    && |Reached(m, c)| >= Quorum(|m|)
    && forall x :: x > c ==> |Reached(m, x)| < Quorum(|m|)
  }

  lemma ReachedAntitone(m: MatchMap, x: nat, y: nat)
    requires x <= y
    ensures Reached(m, y) <= Reached(m, x) && |Reached(m, y)| <= |Reached(m, x)|
  {
    SubsetSize(Reached(m, y), Reached(m, x));
  }

  lemma {:induction false} SubsetSize<T>(a: set<T>, b: set<T>)
    requires a <= b
    ensures |a| <= |b|
  {
    if a == {} {
    } else {
      var e :| e in a;
      SubsetSize(a - {e}, b - {e});
    }
  }

  function CountGE(s: seq<nat>, x: nat): nat {
    if s == [] then 0 else CountGE(s[..|s| - 1], x) + if s[|s| - 1] >= x then 1 else 0
  }

  ghost predicate Sorted(s: seq<nat>) {
    forall i, j :: 0 <= i < j < |s| ==> s[i] <= s[j]
  }

  lemma {:induction false} CountSplit(a: seq<nat>, b: seq<nat>, x: nat)
    ensures CountGE(a + b, x) == CountGE(a, x) + CountGE(b, x)
  {
    if b == [] {
      assert a + b == a;
    } else {
      assert (a + b)[..|a + b| - 1] == a + b[..|b| - 1];
      CountSplit(a, b[..|b| - 1], x);
    }
  }

  lemma {:induction false} CountAll(s: seq<nat>, x: nat)
    ensures (forall i :: 0 <= i < |s| ==> s[i] >= x) ==> CountGE(s, x) == |s|
    ensures (forall i :: 0 <= i < |s| ==> s[i] < x) ==> CountGE(s, x) == 0
    ensures CountGE(s, x) <= |s|
  {
    if s == [] {
    } else {
      CountAll(s[..|s| - 1], x);
    }
  }

  /** In a sorted sequence, element k is reached by the last |s| - k elements, and a larger value
      by fewer. */
  lemma SortedCount(s: seq<nat>, k: nat)
    requires Sorted(s) && k < |s|
    ensures CountGE(s, s[k]) >= |s| - k
    ensures forall x :: x > s[k] ==> CountGE(s, x) < |s| - k
  {
    CountParts(s, k, s[k]);
    CountAll(s[k..], s[k]);
    forall x: nat | x > s[k] ensures CountGE(s, x) < |s| - k {
      CountParts(s, k + 1, x);
      CountAll(s[..k + 1], x);
      CountAll(s[k + 1..], x);
    }
  }

  lemma CountParts(s: seq<nat>, k: nat, x: nat)
    requires k <= |s|
    ensures CountGE(s, x) == CountGE(s[..k], x) + CountGE(s[k..], x)
  {
    assert s == s[..k] + s[k..];
    CountSplit(s[..k], s[k..], x);
  }

  lemma InsertCount(a: seq<nat>, x: nat, b: seq<nat>, v: nat)
    ensures CountGE(a + ([x] + b), v) == CountGE(a + b, v) + CountGE([x], v)
  {
    CountSplit(a, b, v);
    CountSplit(a, [x] + b, v);
    CountSplit([x], b, v);
  }

  /** Put x in its place in a sorted sequence. */
  method Insert(r: seq<nat>, x: nat) returns (next: seq<nat>)
    requires Sorted(r)
    ensures Sorted(next) && |next| == |r| + 1
    ensures forall v :: CountGE(next, v) == CountGE(r, v) + CountGE([x], v)
  {
    var j := |r|;
    while j > 0 && r[j - 1] > x
      invariant 0 <= j <= |r|
      invariant forall k :: j <= k < |r| ==> r[k] > x
    {
      j := j - 1;
    }
    next := r[..j] + ([x] + r[j..]);
    InsertSorted(r, j, x);
    assert r == r[..j] + r[j..];
    forall v ensures CountGE(next, v) == CountGE(r, v) + CountGE([x], v) { InsertCount(r[..j], x, r[j..], v); }
  }

  lemma InsertSorted(r: seq<nat>, j: nat, x: nat)
    requires Sorted(r) && j <= |r| && (j > 0 ==> r[j - 1] <= x) && forall k :: j <= k < |r| ==> r[k] > x
    ensures Sorted(r[..j] + ([x] + r[j..]))
  {
    var next := r[..j] + ([x] + r[j..]);
    forall a, b | 0 <= a < b < |next| ensures next[a] <= next[b] {
      assert next[a] == (if a < j then r[a] else if a == j then x else r[a - 1]);
      assert next[b] == (if b < j then r[b] else if b == j then x else r[b - 1]);
    }
  }

  /** std::ranges::sort, as an insertion sort. */
  method Sort(s: seq<nat>) returns (r: seq<nat>)
    ensures Sorted(r) && |r| == |s|
    ensures forall x :: CountGE(r, x) == CountGE(s, x)
  {
    r := [];
    for i := 0 to |s|
      invariant Sorted(r) && |r| == i
      invariant forall x :: CountGE(r, x) == CountGE(s[..i], x)
    {
      r := Insert(r, s[i]);
      assert s[..i + 1] == s[..i] + [s[i]];
      forall x ensures CountGE(s[..i + 1], x) == CountGE(s[..i], x) + CountGE([s[i]], x) {
        CountSplit(s[..i], [s[i]], x);
      }
    }
    assert s[..|s|] == s;
  }

  /** The values of the map, one per key. */
  method Values(m: MatchMap) returns (idxs: seq<nat>)
    ensures |idxs| == |m|
    ensures forall x :: CountGE(idxs, x) == |Reached(m, x)|
  {
    idxs := [];
    var todo := m.Keys;
    while todo != {}
      invariant todo <= m.Keys
      invariant |idxs| == |m.Keys - todo|
      invariant forall x :: CountGE(idxs, x) == |ReachedIn(m, m.Keys - todo, x)|
    {
      var k :| k in todo;
      assert m.Keys - (todo - {k}) == (m.Keys - todo) + {k};
      forall x ensures CountGE(idxs + [m[k]], x) == |ReachedIn(m, (m.Keys - todo) + {k}, x)| {
        CountOneMore(m, m.Keys - todo, k, idxs, x);
      }
      idxs := idxs + [m[k]];
      todo := todo - {k};
    }
    assert m.Keys - todo == m.Keys && |m.Keys| == |m|;
  }

  lemma CountOneMore(m: MatchMap, done: set<nat>, k: nat, idxs: seq<nat>, x: nat)
    requires done <= m.Keys && k in m && k !in done
    requires CountGE(idxs, x) == |ReachedIn(m, done, x)|
    ensures CountGE(idxs + [m[k]], x) == |ReachedIn(m, done + {k}, x)|
  {
    assert (idxs + [m[k]])[..|idxs|] == idxs;
    var before := ReachedIn(m, done, x);
    assert ReachedIn(m, done + {k}, x) == if m[k] >= x then before + {k} else before;
  }

  /** `idxs[idxs.size() / 2]` after sorting the values of `match_index_`. */
  method PickCommit(m: MatchMap) returns (c: nat)
    requires m != map[]
    ensures IsCommitPoint(m, c) && c == CommitPoint(m)
    ensures exists k :: k in m && m[k] == c
  {
    var idxs := Values(m);
    assert |m.Keys| == |m|;
    var sorted := Sort(idxs);
    c := sorted[|sorted| / 2];
    SortedCount(sorted, |sorted| / 2);
    CommitPointUnique(m, c, CommitPoint(m));
    SomeoneIsThere(m, c);
  }

  lemma CommitPointUnique(m: MatchMap, c: nat, d: nat)
    requires IsCommitPoint(m, c) && IsCommitPoint(m, d)
    ensures c == d
  {}

  lemma SomeoneIsThere(m: MatchMap, c: nat)
    requires m != map[] && IsCommitPoint(m, c)
    ensures exists k :: k in m && m[k] == c
  {
    assert |Reached(m, c + 1)| < |Reached(m, c)|;
    if forall k :: k in m && m[k] >= c ==> m[k] >= c + 1 {
      SubsetSize(Reached(m, c), Reached(m, c + 1));
    }
  }

  ghost function Bound(m: MatchMap, ks: set<nat>): (b: nat)
    requires ks <= m.Keys
    ensures forall k :: k in ks ==> m[k] <= b
  {
    if ks == {} then 0
    else
      var k :| k in ks;
      var b := Bound(m, ks - {k});
      if b < m[k] then m[k] else b
  }

  ghost function SearchDown(m: MatchMap, b: nat): (c: nat)
    requires forall x :: x > b ==> |Reached(m, x)| < Quorum(|m|)
    ensures IsCommitPoint(m, c)
  {
    if |Reached(m, b)| >= Quorum(|m|) then b
    else
      assert b != 0 by { assert Reached(m, 0) == m.Keys && |m.Keys| == |m|; }
      SearchDown(m, b - 1)
  }

  /** The value `PickCommit` computes, found without sorting. */
  ghost function CommitPoint(m: MatchMap): (c: nat)
    requires m != map[]
    ensures IsCommitPoint(m, c)
  {
    var b := Bound(m, m.Keys);
    assert forall x :: x > b ==> Reached(m, x) == {};
    SearchDown(m, b)
  }

  /** The commit point falls short of `x` exactly when too few tracked members have reached `x`. */
  lemma BelowIff(m: MatchMap, x: nat)
    requires m != map[]
    ensures CommitPoint(m) < x <==> |Reached(m, x)| < Quorum(|m|)
  {
    if CommitPoint(m) >= x { ReachedAntitone(m, x, CommitPoint(m)); }
  }

  /** Raising match indices over the same members never lowers the commit point. */
  lemma CommitPointMonotone(m: MatchMap, m': MatchMap)
    requires m != map[] && m.Keys == m'.Keys
    requires forall k :: k in m ==> m[k] <= m'[k]
    ensures CommitPoint(m) <= CommitPoint(m')
  {
    var c := CommitPoint(m);
    SubsetSize(Reached(m, c), Reached(m', c));
    assert |m.Keys| == |m| && |m'.Keys| == |m'|;
    BelowIff(m', c);
  }

  /** With two members tracked, one of them suffices. */
  lemma OneOfTwoSuffices(m: MatchMap, a: nat, b: nat)
    requires a != b && m.Keys == {a, b} && m[b] < m[a]
    ensures CommitPoint(m) == m[a] && Reached(m, m[a]) == {a}
  {
    assert Reached(m, m[a]) == {a};
    assert |m.Keys| == |m| && |{a, b}| == 2;
    forall x | x > m[a] ensures Reached(m, x) == {} {}
    CommitPointUnique(m, m[a], CommitPoint(m));
  }
}
