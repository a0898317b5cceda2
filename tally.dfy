/**
 * Counting labels the way the analyser does it everywhere: a dict is filled
 * by scanning a list (keys in order of first occurrence, values the counts),
 * and `max(d.items(), key=...)` picks an item with the largest value. Python's
 * `max` keeps the FIRST maximal item it meets, so ties go to the key that was
 * inserted first, that is, to the label that occurs first in the list.
 */
module Tally {

  datatype Option<+T> = None | Some(value: T)

  /** Number of occurrences of `x` in `s`. */
  function Occ<T(==)>(s: seq<T>, x: T): nat
  {
    multiset(s)[x]
  }

  /** An element that does not occur in `s` is counted 0 times. */
  lemma OccAbsent<T>(s: seq<T>, x: T)
    requires x !in s
    ensures Occ(s, x) == 0
  {
    assert x !in multiset(s);
  }

  /**
   * The distinct elements of `s` in order of first occurrence: the key order
   * of a Python dict filled by scanning `s` from the left.
   */
  function Distinct<T(==)>(s: seq<T>): seq<T>
  {
    if s == [] then []
    else
      var d := Distinct(s[..|s| - 1]);
      if s[|s| - 1] in d then d else d + [s[|s| - 1]]
  }

  /** The keys are exactly the elements of `s`, each once. */
  lemma {:induction false} DistinctSpec<T>(s: seq<T>)
    ensures forall i :: 0 <= i < |s| ==> s[i] in Distinct(s)
    ensures forall i :: 0 <= i < |Distinct(s)| ==> Distinct(s)[i] in s
    ensures forall i, j :: 0 <= i < j < |Distinct(s)| ==> Distinct(s)[i] != Distinct(s)[j]
  {
    if s != [] {
      var t := s[..|s| - 1];
      DistinctSpec(t);
      forall i | 0 <= i < |s| ensures s[i] in Distinct(s) {
        if i < |t| { assert s[i] == t[i]; }
      }
      forall i | 0 <= i < |Distinct(s)| ensures Distinct(s)[i] in s {
        if i < |Distinct(t)| {
          var k :| 0 <= k < |t| && t[k] == Distinct(t)[i];
          assert s[k] == t[k];
        }
      }
    }
  }

  /**
   * Index of the first maximum of `xs`: what `max` returns for a key function
   * whose values, item by item, are `xs`.
   */
  function ArgMax(xs: seq<real>): (k: nat)
    requires |xs| > 0
    ensures k < |xs|
    ensures forall j :: 0 <= j < |xs| ==> xs[j] <= xs[k]
    ensures forall j :: 0 <= j < k ==> xs[j] < xs[k]
  {
    if |xs| == 1 then 0
    else
      var k := ArgMax(xs[..|xs| - 1]);
      if xs[|xs| - 1] > xs[k] then |xs| - 1 else k
  }

  /** The counts of `keys` in `s`, as the values a key function returns. */
  function CountsOf<T(==)>(s: seq<T>, keys: seq<T>): (c: seq<real>)
    ensures |c| == |keys|
  {
    seq(|keys|, i requires 0 <= i < |keys| => Occ(s, keys[i]) as real)
  }

  /** The label `max(counts.items(), key=lambda x: x[1])[0]` selects. */
  function Mode<T(==)>(s: seq<T>): T
    requires |s| > 0
  {
    var d := Distinct(s);
    d[ArgMax(CountsOf(s, d))]
  }

  /**
   * `x` is a most frequent element of `s`, and no element with the same count
   * occurs in `s` before `x` does.
   */
  ghost predicate IsFirstMode<T>(s: seq<T>, x: T)
  {
    && x in s
    && (forall j :: 0 <= j < |s| ==> Occ(s, s[j]) <= Occ(s, x))
    && (forall j :: 0 <= j < |s| && Occ(s, s[j]) == Occ(s, x) ==> FirstIndex(s, x) <= j)
  }

  /** Every prefix of `s` has as its distinct elements a prefix of those of `s`. */
  lemma {:induction false} DistinctPrefix<T>(s: seq<T>, k: nat)
    requires k <= |s|
    ensures |Distinct(s[..k])| <= |Distinct(s)|
    ensures Distinct(s[..k]) == Distinct(s)[..|Distinct(s[..k])|]
    decreases |s| - k
  {
    if k < |s| {
      var t := s[..|s| - 1];
      assert s[..k] == t[..k];
      DistinctPrefix(t, k);
    } else {
      assert s[..k] == s;
    }
  }

  /** Python's choice is the first most frequent element, and only it. */
  lemma ModeIsFirstMode<T>(s: seq<T>)
    requires |s| > 0
    ensures IsFirstMode(s, Mode(s))
  {
    var d := Distinct(s);
    DistinctSpec(s);
    var c := CountsOf(s, d);
    var p := ArgMax(c);
    var x := d[p];
    forall j | 0 <= j < |s|
      ensures Occ(s, s[j]) <= Occ(s, x)
      ensures Occ(s, s[j]) == Occ(s, x) ==> FirstIndex(s, x) <= j
    {
      assert s[j] in d;
      var q :| 0 <= q < |d| && d[q] == s[j];
      assert c[q] <= c[p];
      if Occ(s, s[j]) == Occ(s, x) {
        assert q >= p;
        KeysSeenBy(s, j, q);
        assert x in s[..j + 1];
        var k :| 0 <= k < j + 1 && s[..j + 1][k] == x;
        assert s[k] == x;
      }
    }
  }

  /** The keys up to that of `s[j]` all occur in `s[..j + 1]`. */
  lemma KeysSeenBy<T>(s: seq<T>, j: nat, q: nat)
    requires j < |s| && q < |Distinct(s)| && Distinct(s)[q] == s[j]
    ensures forall p :: 0 <= p <= q ==> Distinct(s)[p] in s[..j + 1]
  {
    var d := Distinct(s);
    DistinctPrefix(s, j + 1);
    var e := Distinct(s[..j + 1]);
    DistinctSpec(s);
    DistinctSpec(s[..j + 1]);
    assert s[j] == s[..j + 1][j];
    var r :| 0 <= r < |e| && e[r] == s[j];
    assert d[r] == d[q];
    forall p | 0 <= p <= q ensures d[p] in s[..j + 1] {
      assert d[p] == e[p];
    }
  }

  /** Position of the first occurrence of `x` in `s`. */
  function FirstIndex<T(==)>(s: seq<T>, x: T): (k: nat)
    requires x in s
    ensures k < |s| && s[k] == x
    ensures forall j :: 0 <= j < k ==> s[j] != x
  {
    if s[0] == x then 0 else 1 + FirstIndex(s[1..], x)
  }

  /** At most one element is the first most frequent one. */
  lemma FirstModeUnique<T>(s: seq<T>, x: T, y: T)
    requires IsFirstMode(s, x) && IsFirstMode(s, y)
    ensures x == y
  {
    var i, j := FirstIndex(s, x), FirstIndex(s, y);
    assert Occ(s, s[j]) <= Occ(s, x);
    assert Occ(s, s[i]) <= Occ(s, y);
  }

  /** Scanning one more element adds it as a new key unless it is already one. */
  lemma DistinctSnoc<T>(s: seq<T>, e: T)
    ensures Distinct(s + [e]) == if e in Distinct(s) then Distinct(s) else Distinct(s) + [e]
  {
    assert (s + [e])[..|s|] == s;
  }

  /** Membership in `Distinct(s)` is membership in `s`. */
  lemma DistinctHas<T>(s: seq<T>, x: T)
    ensures x in Distinct(s) <==> x in s
  {
    var d := Distinct(s);
    DistinctSpec(s);
    if x in s {
      var i :| 0 <= i < |s| && s[i] == x;
      assert s[i] in d;
    }
    if x in d {
      var i :| 0 <= i < |d| && d[i] == x;
      assert d[i] in s;
    }
  }

  /** An element held by more than half of `s` is its first mode. */
  lemma MajorityIsMode<T>(s: seq<T>, x: T)
    requires 2 * Occ(s, x) > |s|
    ensures Mode(s) == x
  {
    assert x in multiset(s);
    ModeIsFirstMode(s);
    var m := Mode(s);
    if m != x {
      assert Occ(s, m) >= Occ(s, x) by {
        var j :| 0 <= j < |s| && s[j] == x;
      }
      OccDisjoint(s, m, x);
      assert false;
    }
  }

  /** Two different elements together occur at most `|s|` times. */
  lemma {:induction false} OccDisjoint<T>(s: seq<T>, x: T, y: T)
    requires x != y
    ensures Occ(s, x) + Occ(s, y) <= |s|
  {
    if s != [] {
      var t := s[..|s| - 1];
      assert s == t + [s[|s| - 1]];
      OccDisjoint(t, x, y);
    }
  }

  /** `counts` maps exactly the elements of `p` to their numbers of occurrences. */
  ghost predicate Counted<T>(p: seq<T>, counts: map<T, nat>)
  {
    && (forall x :: x in counts ==> x in p && counts[x] == Occ(p, x))
    && (forall i :: 0 <= i < |p| ==> p[i] in counts)
  }

  /** `keys` and `counts` are the dict built from scanning `p`. */
  ghost predicate Tallies<T>(p: seq<T>, keys: seq<T>, counts: map<T, nat>)
  {
    keys == Distinct(p) && Counted(p, counts)
  }

  /** Counting a label already in the dict keeps `Tallies`. */
  lemma TalliesSeen<T>(p: seq<T>, e: T, keys: seq<T>, counts: map<T, nat>)
    requires Tallies(p, keys, counts) && e in counts
    ensures Tallies(p + [e], keys, counts[e := counts[e] + 1])
  {
    CountsStep(p, e, counts);
    DistinctHas(p, e);
    DistinctSnoc(p, e);
  }

  /** Counting a new label appends it to the keys and keeps `Tallies`. */
  lemma TalliesNew<T>(p: seq<T>, e: T, keys: seq<T>, counts: map<T, nat>)
    requires Tallies(p, keys, counts) && e !in counts
    ensures Tallies(p + [e], keys + [e], counts[e := 1])
  {
    CountsStep(p, e, counts);
    DistinctHas(p, e);
    DistinctSnoc(p, e);
  }

  /** The counts part of one step of the dict-filling loop. */
  lemma CountsStep<T>(p: seq<T>, e: T, counts: map<T, nat>)
    requires Counted(p, counts)
    ensures Counted(p + [e], counts[e := if e in counts then counts[e] + 1 else 1])
  {
    var q := p + [e];
    var c' := counts[e := if e in counts then counts[e] + 1 else 1];
    assert multiset(q) == multiset(p) + multiset{e};
    forall x | x in c' ensures x in q && c'[x] == Occ(q, x) {
      if x != e { assert x in p; }
    }
    forall i | 0 <= i < |q| ensures q[i] in c' {
      if i < |p| { assert q[i] == p[i]; }
    }
  }

  /**
   * The dict-filling loop `for e in s: counts[e] = counts.get(e, 0) + 1`:
   * the keys in insertion order, and each key's count.
   */
  method CountLabels<T(==)>(s: seq<T>) returns (keys: seq<T>, counts: map<T, nat>)
    ensures keys == Distinct(s)
    ensures forall x :: x in counts <==> x in s
    ensures forall x :: x in counts ==> counts[x] == Occ(s, x)
  {
    keys, counts := [], map[];
    for i := 0 to |s|
      invariant Tallies(s[..i], keys, counts)
    {
      var e := s[i];
      assert s[..i + 1] == s[..i] + [e];
      if e in counts {
        TalliesSeen(s[..i], e, keys, counts);
        counts := counts[e := counts[e] + 1];
      } else {
        TalliesNew(s[..i], e, keys, counts);
        keys := keys + [e];
        counts := counts[e := 1];
      }
    }
    assert s[..|s|] == s;
  }

  /**
   * `max(counts.items(), key=lambda x: x[1])[0]` over the dict `CountLabels`
   * fills: `None` where Python raises on an empty list.
   */
  method MostFrequent<T(==)>(s: seq<T>) returns (r: Option<T>)
    ensures s == [] ==> r == None
    ensures s != [] ==> r == Some(Mode(s))
  {
    var keys, counts := CountLabels(s);
    DistinctSpec(s);
    if keys == [] {
      return None;
    }
    var scores := seq(|keys|, i requires 0 <= i < |keys| => counts[keys[i]] as real);
    assert scores == CountsOf(s, keys);
    r := Some(keys[ArgMax(scores)]);
  }
}
