/** Python's `re.split(r'\n\s*X:\s*', text)` for a one-letter tag `X`: the split
    the backend uses to cut a model reply into question sections (`X` = `Q`) and
    a flashcard section into question and answer (`X` = `A`, `maxsplit=1`). */
module Markers {
  import opened Text
  import opened Wrappers

  /** The first index at or after `i` that is the end of `s` or not whitespace. */
  function SpaceRunEnd(s: string, i: nat): (j: nat)
    requires i <= |s|
    ensures i <= j <= |s|
    ensures forall k :: i <= k < j ==> IsSpace(s[k])
    ensures j == |s| || !IsSpace(s[j])
    decreases |s| - i
  {
    if i < |s| && IsSpace(s[i]) then SpaceRunEnd(s, i + 1) else i
  }

  /** A run of whitespace from `i` that stops at a non-whitespace character is
      the run `SpaceRunEnd` finds. */
  lemma {:induction false} SpaceRunEndAt(s: string, i: nat, j: nat)
    requires i <= j < |s|
    requires forall k :: i <= k < j ==> IsSpace(s[k])
    requires !IsSpace(s[j])
    ensures SpaceRunEnd(s, i) == j
    decreases j - i
  {
    if i < j {
      SpaceRunEndAt(s, i + 1, j);
    }
  }

  /** The end of the match of `\n\s*TAG:\s*` that starts at `i`, if there is one.
      Both `\s*` are greedy; since the tag is not whitespace, giving back part
      of the first run can never let the tag match, so the character after the
      whole run is the only candidate. */
  function MatchEnd(s: string, i: nat, tag: char): (e: Option<nat>)
    requires i <= |s|
    ensures e.Some? ==> i + 3 <= e.value <= |s|
  {
    if i < |s| && s[i] == '\n' then
      var j := SpaceRunEnd(s, i + 1);
      if j + 1 < |s| && s[j] == tag && s[j + 1] == ':' then Some(SpaceRunEnd(s, j + 2)) else None
    else None
  }

  /** The leftmost start of a match at or after `from`. */
  function FindMatch(s: string, from: nat, tag: char): (r: Option<nat>)
    requires from <= |s|
    ensures r.Some? ==> from <= r.value < |s| && MatchEnd(s, r.value, tag).Some?
    ensures forall p :: from <= p < (if r.Some? then r.value else |s|) ==> MatchEnd(s, p, tag).None?
    decreases |s| - from
  {
    if from == |s| then None
    else if MatchEnd(s, from, tag).Some? then Some(from)
    else FindMatch(s, from + 1, tag)
  }

  /** `s` holds no match of the marker at all. */
  predicate NoMarker(s: string, tag: char) {
    FindMatch(s, 0, tag).None?
  }

  /** `re.split` continued from `from`: the text up to the leftmost match, then
      the split of what follows that match. */
  function SplitFrom(s: string, from: nat, tag: char): (r: seq<string>)
    requires from <= |s|
    ensures |r| >= 1
    decreases |s| - from
  {
    match FindMatch(s, from, tag)
    case None => [s[from..]]
    case Some(i) => [s[from..i]] + SplitFrom(s, MatchEnd(s, i, tag).value, tag)
  }

  /** `re.split(r'\n\s*TAG:\s*', s)` */
  function Split(s: string, tag: char): seq<string> {
    SplitFrom(s, 0, tag)
  }

  /** `re.split(r'\n\s*TAG:\s*', s, maxsplit=1)` */
  function SplitOnce(s: string, tag: char): (r: seq<string>)
    ensures 1 <= |r| <= 2
  {
    match FindMatch(s, 0, tag)
    case None => [s]
    case Some(i) => [s[..i], s[MatchEnd(s, i, tag).value..]]
  }

  /** A match inside a slice of `s` is a match in `s` at the same place: what a
      match reads lies wholly inside the slice, up to its tag. */
  lemma MatchInSlice(s: string, a: nat, b: nat, p: nat, tag: char)
    requires a <= b <= |s| && p <= b - a
    requires !IsSpace(tag)
    requires MatchEnd(s[a..b], p, tag).Some?
    ensures MatchEnd(s, a + p, tag).Some?
  {
    var t := s[a..b];
    var j := SpaceRunEnd(t, p + 1);
    assert t[j] == tag;
    forall k | a + p + 1 <= k < a + j
      ensures IsSpace(s[k])
    {
      assert s[k] == t[k - a];
    }
    SpaceRunEndAt(s, a + p + 1, a + j);
  }

  /** A slice of a string without markers has none either. */
  lemma NoMarkerInSlice(s: string, a: nat, b: nat, tag: char)
    requires a <= b <= |s|
    requires !IsSpace(tag)
    requires FindMatch(s, a, tag).None? || b <= FindMatch(s, a, tag).value
    ensures NoMarker(s[a..b], tag)
  {
    var t := s[a..b];
    if FindMatch(t, 0, tag).Some? {
      var p := FindMatch(t, 0, tag).value;
      MatchInSlice(s, a, b, p, tag);
      assert false;
    }
  }

  /** No piece of a split contains the marker again: each piece ends where the
      leftmost remaining match begins. */
  lemma {:induction false} SplitFromPiecesHaveNoMarker(s: string, from: nat, tag: char)
    requires from <= |s|
    requires !IsSpace(tag)
    ensures forall k :: 0 <= k < |SplitFrom(s, from, tag)| ==> NoMarker(SplitFrom(s, from, tag)[k], tag)
    decreases |s| - from
  {
    var r := SplitFrom(s, from, tag);
    match FindMatch(s, from, tag)
    case None =>
      NoMarkerInSlice(s, from, |s|, tag);
      assert s[from..|s|] == s[from..];
    case Some(i) =>
      var e := MatchEnd(s, i, tag).value;
      var rest := SplitFrom(s, e, tag);
      assert r == [s[from..i]] + rest;
      NoMarkerInSlice(s, from, i, tag);
      SplitFromPiecesHaveNoMarker(s, e, tag);
      forall k | 0 <= k < |r|
        ensures NoMarker(r[k], tag)
      {
        if k > 0 {
          assert r[k] == rest[k - 1];
        }
      }
  }

  lemma SplitPiecesHaveNoMarker(s: string, tag: char)
    requires !IsSpace(tag)
    ensures forall k :: 0 <= k < |Split(s, tag)| ==> NoMarker(Split(s, tag)[k], tag)
  {
    SplitFromPiecesHaveNoMarker(s, 0, tag);
  }

  /** Splitting a string without markers leaves it whole. */
  lemma SplitOfNoMarker(s: string, tag: char)
    requires NoMarker(s, tag)
    ensures Split(s, tag) == [s]
  {
  }

  /** A suffix of a string without markers has none either. */
  lemma NoMarkerSuffix(s: string, a: nat, tag: char)
    requires a <= |s|
    requires !IsSpace(tag)
    requires NoMarker(s, tag)
    ensures NoMarker(s[a..], tag)
  {
    assert FindMatch(s, a, tag).None? by {
      if FindMatch(s, a, tag).Some? {
        assert false;
      }
    }
    NoMarkerInSlice(s, a, |s|, tag);
    assert s[a..|s|] == s[a..];
  }

  /** Any slice of a string without markers has none either. */
  lemma NoMarkerSlice(s: string, a: nat, b: nat, tag: char)
    requires a <= b <= |s|
    requires !IsSpace(tag)
    requires NoMarker(s, tag)
    ensures NoMarker(s[a..b], tag)
  {
    assert FindMatch(s, a, tag).None? by {
      if FindMatch(s, a, tag).Some? {
        assert false;
      }
    }
    NoMarkerInSlice(s, a, b, tag);
  }

  /** Stripping a string without markers leaves none. */
  lemma NoMarkerStrip(s: string, tag: char)
    requires !IsSpace(tag)
    requires NoMarker(s, tag)
    ensures NoMarker(Strip(s), tag)
  {
    var t := StripStart(s);
    StripStartSuffix(s);
    NoMarkerSuffix(s, |s| - |t|, tag);
    StripEndPrefix(t);
    NoMarkerSlice(t, 0, |StripEnd(t)|, tag);
  }

  /** What follows the first marker of one kind, in a string without markers
      of another kind, holds none of those either. */
  lemma NoMarkerAfterSplitOnce(s: string, cut: char, tag: char)
    requires !IsSpace(tag)
    requires NoMarker(s, tag)
    ensures |SplitOnce(s, cut)| == 2 ==> NoMarker(SplitOnce(s, cut)[1], tag)
  {
    match FindMatch(s, 0, cut)
    case None =>
    case Some(i) =>
      NoMarkerSuffix(s, MatchEnd(s, i, cut).value, tag);
  }

  /** A string none of whose newlines is followed by whitespace or the tag
      holds no marker. */
  lemma NewlinesNotMarkers(s: string, tag: char)
    requires forall k :: 0 <= k < |s| - 1 && s[k] == '\n' ==> s[k + 1] != tag && !IsSpace(s[k + 1])
    ensures NoMarker(s, tag)
  {
  }

  /** The values a per-section parser accepted, in section order; a section it
      rejects contributes nothing, and none contributes twice. */
  function Kept<T>(sections: seq<string>, parse: string -> Option<T>): (r: seq<T>)
    ensures |r| <= |sections|
  {
    if sections == [] then []
    else
      var prev := Kept(sections[..|sections| - 1], parse);
      var last := sections[|sections| - 1];
      match parse(last)
      case Some(x) => prev + [x]
      case None => prev
  }

  /** A parser that accepts every section keeps one value per section. */
  lemma {:induction false} KeptAll<T>(sections: seq<string>, parse: string -> Option<T>)
    requires forall s :: s in sections ==> parse(s).Some?
    ensures |Kept(sections, parse)| == |sections|
  {
    if sections != [] {
      KeptAll(sections[..|sections| - 1], parse);
    }
  }

  /** Every kept value is what the parser made of one of the sections. */
  lemma {:induction false} KeptFrom<T>(sections: seq<string>, parse: string -> Option<T>)
    ensures forall x :: x in Kept(sections, parse) ==> exists s :: s in sections && parse(s) == Some(x)
  {
    if sections != [] {
      KeptFrom(sections[..|sections| - 1], parse);
    }
  }
}
