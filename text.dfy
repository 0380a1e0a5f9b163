/**
  The few Python string operations the core relies on: `str.lower()`, the
  substring test `t in s`, `s.split(sep)` and `sep.join(parts)`.
  Strings are sequences of characters.
 */
module Text {
  import opened Wrappers

  predicate IsUpper(c: char) {
    'A' <= c <= 'Z'
  }

  /** Lower-cases one character (ASCII letters only). */
  function LowerChar(c: char): (r: char)
    ensures !IsUpper(r)
    ensures IsUpper(c) ==> 'a' <= r <= 'z' && r as int - 'a' as int == c as int - 'A' as int
    ensures !IsUpper(c) ==> r == c
  {
    if IsUpper(c) then (c as int + 32) as char else c
  }

  /**
    `s.lower()`: same length, every upper-case letter replaced by the
    lower-case letter at the same place in the alphabet, other characters kept.
   */
  function Lower(s: string): (r: string)
    ensures |r| == |s|
    ensures forall i :: 0 <= i < |r| ==> !IsUpper(r[i])
    ensures forall i :: 0 <= i < |s| && IsUpper(s[i]) ==>
      'a' <= r[i] <= 'z' && r[i] as int - 'a' as int == s[i] as int - 'A' as int
    ensures forall i :: 0 <= i < |s| && !IsUpper(s[i]) ==> r[i] == s[i]
  {
    seq(|s|, i requires 0 <= i < |s| => LowerChar(s[i]))
  }

  lemma LowerAppend(a: string, b: string)
    ensures Lower(a + b) == Lower(a) + Lower(b)
  {
    assert forall i :: 0 <= i < |a + b| ==> Lower(a + b)[i] == (Lower(a) + Lower(b))[i];
  }

  /** A string without upper-case letters is its own lower-case form. */
  lemma LowerOfLower(s: string)
    requires forall c :: c in s ==> !IsUpper(c)
    ensures Lower(s) == s
  {
    assert forall i :: 0 <= i < |s| ==> s[i] in s;
  }

  /** `t` occurs in `s` starting at index `j`. */
  predicate OccursAt(s: string, t: string, j: nat) {
    j + |t| <= |s| && s[j..j + |t|] == t
  }

  lemma OccursAtShift(s: string, t: string)
    requires |s| > 0
    ensures forall j: nat :: j >= 1 ==> (OccursAt(s, t, j) <==> OccursAt(s[1..], t, j - 1))
  {
    forall j: nat | j >= 1 ensures OccursAt(s, t, j) <==> OccursAt(s[1..], t, j - 1) {
      if j + |t| <= |s| {
        assert s[1..][j - 1..j - 1 + |t|] == s[j..j + |t|];
      }
    }
  }

  /** `s.find(t)`: the leftmost index at which `t` occurs in `s`, if any. */
  function IndexOf(s: string, t: string): (r: Option<nat>)
    ensures r.Some? ==> OccursAt(s, t, r.value)
    ensures r.Some? ==> forall j: nat :: j < r.value ==> !OccursAt(s, t, j)
    ensures r.None? ==> forall j: nat :: !OccursAt(s, t, j)
    decreases |s|
  {
    if |s| < |t| then None
    else if s[..|t|] == t then Some(0)
    else
      assert !OccursAt(s, t, 0) by {
        assert s[0..|t|] == s[..|t|];
      }
      OccursAtShift(s, t);
      match IndexOf(s[1..], t)
      case None => None
      case Some(i) => Some(i + 1)
  }

  /** Upper-cases one character (ASCII letters only); lower-casing undoes it. */
  function UpperChar(c: char): (r: char)
    ensures 'a' <= c <= 'z' ==> IsUpper(r) && LowerChar(r) == c
    ensures !('a' <= c <= 'z') ==> r == c
  {
    if 'a' <= c <= 'z' then (c as int - 32) as char else c
  }

  /** All characters of `t` are lower-case letters. */
  predicate LowerLetters(t: string) {
    forall c :: c in t ==> 'a' <= c <= 'z'
  }

  /** `t` occurs in `s` at `j` when each letter may be in either case. */
  predicate MatchesAnyCaseAt(s: string, t: string, j: nat) {
    j + |t| <= |s| && forall k :: 0 <= k < |t| ==> s[j + k] == t[k] || s[j + k] == UpperChar(t[k])
  }

  /**
    `t in s.lower()` for a lower-case word `t` holds exactly when `t`
    occurs in `s` with any mix of upper- and lower-case letters.
   */
  lemma ContainsIgnoringCase(s: string, t: string)
    requires LowerLetters(t)
    ensures Contains(Lower(s), t) <==> exists j: nat :: MatchesAnyCaseAt(s, t, j)
  {
    var lowered := Lower(s);
    forall j: nat ensures OccursAt(lowered, t, j) <==> MatchesAnyCaseAt(s, t, j) {
      if j + |t| <= |s| {
        forall k | 0 <= k < |t|
          ensures lowered[j + k] == t[k] <==> s[j + k] == t[k] || s[j + k] == UpperChar(t[k])
        {
          assert t[k] in t;
          assert lowered[j..j + |t|][k] == lowered[j + k];
        }
      }
    }
    if Contains(lowered, t) {
      var j := IndexOf(lowered, t).value;
      assert MatchesAnyCaseAt(s, t, j);
    }
    if exists j: nat :: MatchesAnyCaseAt(s, t, j) {
      var j: nat :| MatchesAnyCaseAt(s, t, j);
      ContainsWitness(lowered, t, j);
    }
  }

  /** Python's `t in s` on strings. */
  predicate Contains(s: string, t: string) {
    IndexOf(s, t).Some?
  }

  lemma ContainsWitness(s: string, t: string, j: nat)
    requires OccursAt(s, t, j)
    ensures Contains(s, t)
  {
  }

  /**
    No occurrence of `sep` starts inside `piece`, not even one that runs on
    into a separator written right after it.
   */
  predicate NoSeparatorStartsIn(piece: string, sep: string)
    requires |sep| > 0
  {
    !Contains(piece + sep[..|sep| - 1], sep)
  }

  /**
    `s.split(sep)`: cut at every leftmost non-overlapping occurrence of a
    non-empty separator. Python raises ValueError for an empty separator,
    which no caller here passes. No piece contains the separator, and no
    separator starts inside a piece that is followed by a cut, so each cut
    is at the leftmost occurrence left in the text.
   */
  function Split(s: string, sep: string): (r: seq<string>)
    requires |sep| > 0
    ensures |r| >= 1
    ensures forall k :: 0 <= k < |r| ==> !Contains(r[k], sep)
    ensures forall k :: 0 <= k < |r| - 1 ==> NoSeparatorStartsIn(r[k], sep)
    decreases |s|
  {
    match IndexOf(s, sep)
    case None => [s]
    case Some(i) =>
      var head := s[..i];
      assert OccursAt(s, sep, i);
      var extended := head + sep[..|sep| - 1];
      assert extended == s[..i + |sep| - 1];
      // an occurrence in `head`, or one starting in it, would be one in `s` before `i`
      forall j: nat ensures !OccursAt(extended, sep, j) && !OccursAt(head, sep, j) {
        if j + |sep| <= |extended| {
          assert j < i;
          assert extended[j..j + |sep|] == s[..i + |sep| - 1][j..j + |sep|] == s[j..j + |sep|];
          assert !OccursAt(s, sep, j);
        }
      }
      [head] + Split(s[i + |sep|..], sep)
  }

  /** `sep.join(parts)`. */
  function Join(parts: seq<string>, sep: string): string
  {
    if |parts| == 0 then ""
    else if |parts| == 1 then parts[0]
    else parts[0] + sep + Join(parts[1..], sep)
  }

  /** Splitting loses no text: joining the pieces gives the original back. */
  lemma {:induction false} JoinSplit(s: string, sep: string)
    requires |sep| > 0
    ensures Join(Split(s, sep), sep) == s
    decreases |s|
  {
    match IndexOf(s, sep)
    case None =>
    case Some(i) =>
      var rest := s[i + |sep|..];
      var pieces := Split(rest, sep);
      JoinSplit(rest, sep);
      assert Split(s, sep) == [s[..i]] + pieces;
      assert Join([s[..i]] + pieces, sep) == s[..i] + sep + Join(pieces, sep) by {
        assert ([s[..i]] + pieces)[1..] == pieces;
      }
      assert s == s[..i] + s[i..i + |sep|] + rest;
  }

  /**
    The contract of `Split` pins its result down: any pieces that join to
    `s`, contain no separator, and have no separator starting inside a piece
    followed by a cut are exactly `Split(s, sep)`.
   */
  lemma {:induction false} SplitUnique(s: string, sep: string, parts: seq<string>)
    requires |sep| > 0 && |parts| >= 1 && Join(parts, sep) == s
    requires forall k :: 0 <= k < |parts| ==> !Contains(parts[k], sep)
    requires forall k :: 0 <= k < |parts| - 1 ==> NoSeparatorStartsIn(parts[k], sep)
    ensures Split(s, sep) == parts
    decreases |parts|
  {
    if |parts| > 1 {
      var p, tail := parts[0], Join(parts[1..], sep);
      assert s == p + sep + tail;
      assert OccursAt(s, sep, |p|) by {
        assert s[|p|..|p| + |sep|] == sep;
      }
      // no occurrence starts inside `p`, so the leftmost one is the separator after it
      var extended := p + sep[..|sep| - 1];
      assert extended == s[..|p| + |sep| - 1];
      forall j: nat | j < |p| ensures !OccursAt(s, sep, j) {
        assert !OccursAt(extended, sep, j);
        assert extended[j..j + |sep|] == s[j..j + |sep|];
      }
      var i := IndexOf(s, sep).value;
      assert i == |p|;
      assert s[..i] == p;
      assert s[i + |sep|..] == tail;
      SplitUnique(tail, sep, parts[1..]);
    } else {
      assert s == parts[0];
    }
  }

  /**
    Joining pieces that do not contain a one-character separator and
    splitting again gives the same pieces.
   */
  lemma SplitJoin(parts: seq<string>, sep: string)
    requires |sep| == 1 && |parts| >= 1
    requires forall k :: 0 <= k < |parts| ==> !Contains(parts[k], sep)
    ensures Split(Join(parts, sep), sep) == parts
  {
    forall k | 0 <= k < |parts| - 1 ensures NoSeparatorStartsIn(parts[k], sep) {
      assert parts[k] + sep[..0] == parts[k];
    }
    SplitUnique(Join(parts, sep), sep, parts);
  }

  /** A needle whose first character is absent from `s` does not occur in it. */
  lemma AbsentFirstChar(s: string, t: string)
    requires |t| > 0 && t[0] !in s
    ensures !Contains(s, t)
  {
  }

  /** Splitting `a + sep + b` where `a` cannot hold the start of a separator and `b` holds none. */
  lemma SplitAround(a: string, sep: string, b: string)
    requires |sep| > 0 && sep[0] !in a && !Contains(b, sep)
    ensures Split(a + sep + b, sep) == [a, b]
  {
    var s := a + sep + b;
    assert OccursAt(s, sep, |a|) by {
      assert s[|a|..|a| + |sep|] == sep;
    }
    var i := IndexOf(s, sep).value;
    assert i == |a|;
    assert s[..i] == a && s[i + |sep|..] == b;
  }
}
