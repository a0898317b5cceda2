/**
 * The Python string operations the transcript code uses: `str.split(sep)`
 * with a one-character separator, its inverse `sep.join`, `str.strip()`,
 * `str.lower()` on ASCII letters and `str.endswith`.
 */
module Text {

  /** The characters `str.isspace()` accepts: Unicode whitespace and the ASCII separators. */
  const Whitespace: set<char> := {
    '\t', '\n', '\U{B}', '\U{C}', '\r', '\U{1C}', '\U{1D}', '\U{1E}', '\U{1F}', ' ', '\U{85}',
    '\U{A0}', '\U{1680}', '\U{2000}', '\U{2001}', '\U{2002}', '\U{2003}', '\U{2004}',
    '\U{2005}', '\U{2006}', '\U{2007}', '\U{2008}', '\U{2009}', '\U{200A}', '\U{2028}',
    '\U{2029}', '\U{202F}', '\U{205F}', '\U{3000}'
  }

  /** `str.isspace()` for one character: what `strip()` removes. */
  predicate IsSpace(c: char)
  {
    c in Whitespace
  }

  // ---------------------------------------------------------------------------
  // split and join
  // ---------------------------------------------------------------------------

  /**
   * `s.split(d)`: the pieces between occurrences of `d`, empty pieces
   * included, so there is always one piece more than there are separators.
   */
  function Split(s: string, d: char): (r: seq<string>)
    ensures |r| >= 1
    ensures forall k :: 0 <= k < |r| ==> d !in r[k]
  {
    if s == [] then [[]]
    else
      var rest := Split(s[1..], d);
      if s[0] == d then [[]] + rest
      else [[s[0]] + rest[0]] + rest[1..]
  }

  /** `d.join(pieces)`. */
  function Join(pieces: seq<string>, d: char): string
  {
    if pieces == [] then []
    else if |pieces| == 1 then pieces[0]
    else pieces[0] + [d] + Join(pieces[1..], d)
  }

  /** Joining the pieces of a split gives back the string. */
  lemma {:induction false} JoinSplit(s: string, d: char)
    ensures Join(Split(s, d), d) == s
  {
    if s != [] {
      var rest := Split(s[1..], d);
      JoinSplit(s[1..], d);
      if s[0] == d {
        assert Join([[]] + rest, d) == [d] + Join(rest, d);
      } else if |rest| == 1 {
        assert Join(Split(s, d), d) == [s[0]] + rest[0];
      } else {
        assert Join(rest, d) == rest[0] + [d] + Join(rest[1..], d);
        assert Split(s, d)[1..] == rest[1..];
      }
    }
  }

  /** Joining one more piece adds a separator and that piece. */
  lemma {:induction false} JoinSnoc(pieces: seq<string>, q: string, d: char)
    requires pieces != []
    ensures Join(pieces + [q], d) == Join(pieces, d) + [d] + q
  {
    if |pieces| > 1 {
      JoinSnoc(pieces[1..], q, d);
      assert (pieces + [q])[1..] == pieces[1..] + [q];
    }
  }

  /** Splitting the join of separator-free pieces gives back the pieces. */
  lemma {:induction false} SplitJoin(pieces: seq<string>, d: char)
    requires |pieces| >= 1
    requires forall k :: 0 <= k < |pieces| ==> d !in pieces[k]
    ensures Split(Join(pieces, d), d) == pieces
  {
    if |pieces| == 1 {
      SplitFree(pieces[0], d);
    } else {
      SplitJoin(pieces[1..], d);
      SplitFreePrefix(pieces[0], Join(pieces[1..], d), d);
      assert [pieces[0]] + pieces[1..] == pieces;
    }
  }

  /** A string without the separator is a single piece. */
  lemma {:induction false} SplitFree(p: string, d: char)
    requires d !in p
    ensures Split(p, d) == [p]
  {
    if p != [] {
      SplitFree(p[1..], d);
      assert [p[0]] + p[1..] == p;
    }
  }

  /** A separator-free prefix followed by the separator is split off as the first piece. */
  lemma {:induction false} SplitFreePrefix(p: string, t: string, d: char)
    requires d !in p
    ensures Split(p + [d] + t, d) == [p] + Split(t, d)
  {
    var s := p + [d] + t;
    if p == [] {
      assert s[1..] == t;
    } else {
      assert s[1..] == p[1..] + [d] + t;
      SplitFreePrefix(p[1..], t, d);
      assert [p[0]] + p[1..] == p;
    }
  }

  // ---------------------------------------------------------------------------
  // strip
  // ---------------------------------------------------------------------------

  /** Where the leading whitespace of `s[from..]` ends: its first non-space position, or `|s|`. */
  function FirstNonSpace(s: string, from: nat): (i: nat)
    requires from <= |s|
    ensures from <= i <= |s|
    ensures i < |s| ==> !IsSpace(s[i])
    ensures forall k :: from <= k < i ==> IsSpace(s[k])
    decreases |s| - from
  {
    if from == |s| || !IsSpace(s[from]) then from else FirstNonSpace(s, from + 1)
  }

  /** Where the trailing whitespace of `s[lo..to]` starts: one past its last non-space, or `lo`. */
  function LastNonSpace(s: string, lo: nat, to: nat): (j: nat)
    requires lo <= to <= |s|
    ensures lo <= j <= to
    ensures j > lo ==> !IsSpace(s[j - 1])
    ensures forall k :: j <= k < to ==> IsSpace(s[k])
  {
    if to == lo || !IsSpace(s[to - 1]) then to else LastNonSpace(s, lo, to - 1)
  }

  /** `r` is the slice of `s` at `i`, with only whitespace around it and none at its ends. */
  predicate Trimmed(s: string, r: string, i: nat)
  {
    i + |r| <= |s| && r == s[i..i + |r|]
    && (forall k :: 0 <= k < i ==> IsSpace(s[k]))
    && (forall k :: i + |r| <= k < |s| ==> IsSpace(s[k]))
    && (r == [] || (!IsSpace(r[0]) && !IsSpace(r[|r| - 1])))
  }

  /**
   * `s.strip()`: the slice of `s` between its leading and trailing
   * whitespace; it neither starts nor ends with whitespace.
   */
  function Strip(s: string): string
  {
    var i := FirstNonSpace(s, 0);
    s[i..LastNonSpace(s, i, |s|)]
  }

  /** What `Strip` leaves: the slice between the leading and the trailing whitespace. */
  lemma StripSpec(s: string)
    ensures Trimmed(s, Strip(s), FirstNonSpace(s, 0))
  {
  }

  /** Every character of `Strip(s)` is one of `s`. */
  lemma StripWithin(s: string)
    ensures forall c :: c in Strip(s) ==> c in s
  {
    var r, i := Strip(s), FirstNonSpace(s, 0);
    StripSpec(s);
    forall c | c in r
      ensures c in s
    {
      var m :| 0 <= m < |r| && r[m] == c;
      assert s[i + m] == c;
    }
  }

  /** A string that neither starts nor ends with whitespace strips to itself. */
  lemma StripUnpadded(s: string)
    requires s != [] ==> !IsSpace(s[0]) && !IsSpace(s[|s| - 1])
    ensures Strip(s) == s
  {
    StripSpec(s);
  }

  /** Stripping twice strips nothing more. */
  lemma StripIdempotent(s: string)
    ensures Strip(Strip(s)) == Strip(s)
  {
    StripSpec(s);
    StripUnpadded(Strip(s));
  }

  /** A string strips to nothing exactly when it is all whitespace. */
  lemma StripEmptyIff(s: string)
    ensures Strip(s) == [] <==> forall k :: 0 <= k < |s| ==> IsSpace(s[k])
  {
    StripSpec(s);
    if Strip(s) == [] && |s| > 0 {
      assert FirstNonSpace(s, 0) == |s|;
    }
  }

  // ---------------------------------------------------------------------------
  // lower and endswith
  // ---------------------------------------------------------------------------

  /** `c.lower()` for an ASCII letter; every other character is kept. */
  function LowerChar(c: char): char
  {
    if 'A' <= c <= 'Z' then (c as int - 'A' as int + 'a' as int) as char else c
  }

  /** `s.lower()`, character by character. */
  function Lower(s: string): (r: string)
    ensures |r| == |s|
  {
    seq(|s|, i requires 0 <= i < |s| => LowerChar(s[i]))
  }

  /** Lower-casing twice changes nothing more, and no upper-case ASCII letter survives it. */
  lemma LowerIdempotent(s: string)
    ensures Lower(Lower(s)) == Lower(s)
    ensures forall i :: 0 <= i < |s| ==> !('A' <= Lower(s)[i] <= 'Z')
  {
  }

  /** `s.endswith(suffix)`. */
  predicate EndsWith(s: string, suffix: string)
  {
    |suffix| <= |s| && s[|s| - |suffix|..] == suffix
  }
}
