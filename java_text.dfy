/** Text operations with the semantics of the Java library calls that the settings bean relies on:
    `String.split` with the delimiter pattern `\s*\|\s*` (TEXT_SPLIT_REGEX) and joining a list of
    strings with a separator. */
module JavaText {

  /** The delimiter of the `|`-separated name lists (TEXT_DELIMITER). */
  const DELIMITER: char := '|'

  /** The class `\s` of java.util.regex: space, and tab, line feed, vertical tab, form feed and
      carriage return, which are the consecutive code points 9 to 13. */
  predicate IsJavaWhitespace(c: char) {
    c == ' ' || '\t' <= c <= '\r'
  }

  predicate AllWhitespace(w: string) {
    forall k :: 0 <= k < |w| ==> IsJavaWhitespace(w[k])
  }

  /** `s` without its leading whitespace: the longest suffix of `s` that does not start with
      whitespace (StripLeftCutsWhitespace). */
  function StripLeft(s: string): (r: string)
    ensures |r| <= |s|
    ensures r == [] || !IsJavaWhitespace(r[0])
  {
    if s != [] && IsJavaWhitespace(s[0]) then StripLeft(s[1..]) else s
  }

  /** `s` without its trailing whitespace: the longest prefix of `s` that does not end with
      whitespace (StripRightCutsWhitespace). */
  function StripRight(s: string): (r: string)
    ensures |r| <= |s|
    ensures r == [] || !IsJavaWhitespace(r[|r| - 1])
  {
    if s != [] && IsJavaWhitespace(s[|s| - 1]) then StripRight(s[..|s| - 1]) else s
  }

  /** Position of the first delimiter in `s`, or -1 when there is none (`String.indexOf`). */
  function IndexOfDelimiter(s: string): (i: int)
    ensures -1 <= i < |s|
    ensures 0 <= i ==> s[i] == DELIMITER
    ensures forall k :: 0 <= k < |s| && (i < 0 || k < i) ==> s[k] != DELIMITER
  {
    if s == [] then -1
    else if s[0] == DELIMITER then 0
    else
      var j := IndexOfDelimiter(s[1..]);
      if j < 0 then -1 else j + 1
  }

  /** The strings between successive matches of `\s*\|\s*`, in the order in which
      `Matcher.find` discovers them. The leftmost match that reaches a `|` starts at the
      beginning of the whitespace run in front of it, and the greedy `\s*` after the `|`
      takes the whole run behind it; so each piece loses exactly the whitespace that touches
      a delimiter and keeps any other. No piece contains a delimiter. */
  function Pieces(s: string): (r: seq<string>)
    ensures |r| >= 1
    decreases |s|
  {
    var i := IndexOfDelimiter(s);
    if i < 0 then [s]
    else [StripRight(s[..i])] + Pieces(StripLeft(s[i + 1..]))
  }

  /** Only whitespace is cut off the front of a string. */
  lemma {:induction false} StripLeftCutsWhitespace(s: string)
    ensures StripLeft(s) == s[|s| - |StripLeft(s)|..]
    ensures AllWhitespace(s[..|s| - |StripLeft(s)|])
    decreases |s|
  {
    if s != [] && IsJavaWhitespace(s[0]) {
      StripLeftCutsWhitespace(s[1..]);
      var n := |s| - |StripLeft(s)|;
      assert s[..n] == [s[0]] + s[1..][..n - 1];
    }
  }

  /** Only whitespace is cut off the end of a string. */
  lemma {:induction false} StripRightCutsWhitespace(s: string)
    ensures StripRight(s) == s[..|StripRight(s)|]
    ensures AllWhitespace(s[|StripRight(s)|..])
    decreases |s|
  {
    if s != [] && IsJavaWhitespace(s[|s| - 1]) {
      var t := s[..|s| - 1];
      StripRightCutsWhitespace(t);
      var n := |StripRight(s)|;
      assert s[n..] == t[n..] + [s[|s| - 1]];
    }
  }

  /** No piece of the scan contains a delimiter: every match takes its `|` with it. */
  lemma {:induction false} PiecesHaveNoDelimiter(s: string)
    ensures forall k :: 0 <= k < |Pieces(s)| ==> DELIMITER !in Pieces(s)[k]
    decreases |s|
  {
    var i := IndexOfDelimiter(s);
    if i >= 0 {
      var p := StripRight(s[..i]);
      StripRightCutsWhitespace(s[..i]);
      assert forall k :: 0 <= k < |p| ==> p[k] == s[k];
      PiecesHaveNoDelimiter(StripLeft(s[i + 1..]));
    }
  }

  /** `ps` without its trailing empty strings (what `split` with limit 0 does to its result):
      a prefix of `ps` behind which only empty strings were dropped. */
  function DropTrailingEmpty(ps: seq<string>): (r: seq<string>)
    ensures |r| <= |ps| && r == ps[..|r|]
    ensures forall k :: |r| <= k < |ps| ==> ps[k] == ""
    ensures r == [] || r[|r| - 1] != ""
  {
    if ps != [] && ps[|ps| - 1] == "" then DropTrailingEmpty(ps[..|ps| - 1]) else ps
  }

  /** `DELIMITER in s` and the index search agree. */
  lemma DelimiterFound(s: string)
    ensures DELIMITER in s <==> IndexOfDelimiter(s) >= 0
  {
    if DELIMITER in s {
      var k :| 0 <= k < |s| && s[k] == DELIMITER;
    }
  }

  /** `s.split("\\s*\\|\\s*")`: when no delimiter matches, the whole string; otherwise the
      pieces between the matches, trailing empty pieces dropped. A leading empty piece is kept,
      because every match has positive width. */
  function Split(s: string): (r: seq<string>)
    ensures forall k :: 0 <= k < |r| ==> DELIMITER !in r[k]
    ensures DELIMITER !in s ==> r == [s]
    ensures DELIMITER in s ==>
      (|r| <= |Pieces(s)| && r == Pieces(s)[..|r|]
       && (forall k :: |r| <= k < |Pieces(s)| ==> Pieces(s)[k] == "")
       && (r == [] || r[|r| - 1] != ""))
  {
    DelimiterFound(s);
    PiecesHaveNoDelimiter(s);
    if IndexOfDelimiter(s) < 0 then [s] else DropTrailingEmpty(Pieces(s))
  }

  /** `xs` joined with `sep` between consecutive entries. */
  function Join(xs: seq<string>, sep: string): (r: string)
  {
    if |xs| == 0 then ""
    else if |xs| == 1 then xs[0]
    else xs[0] + sep + Join(xs[1..], sep)
  }

  lemma {:induction false} JoinAppend(xs: seq<string>, x: string, sep: string)
    requires xs != []
    ensures Join(xs + [x], sep) == Join(xs, sep) + sep + x
  {
    if |xs| == 1 {
      assert xs + [x] == [xs[0], x];
      assert (xs + [x])[1..] == [x];
    } else {
      assert (xs + [x])[1..] == xs[1..] + [x];
      JoinAppend(xs[1..], x, sep);
    }
  }

  lemma {:induction false} StripLeftSkipsWhitespace(w: string, t: string)
    requires AllWhitespace(w)
    ensures StripLeft(w + t) == StripLeft(t)
  {
    if w != [] {
      assert (w + t)[1..] == w[1..] + t;
      StripLeftSkipsWhitespace(w[1..], t);
    } else {
      assert w + t == t;
    }
  }

  lemma {:induction false} StripRightSkipsWhitespace(x: string, w: string)
    requires AllWhitespace(w)
    requires x == [] || !IsJavaWhitespace(x[|x| - 1])
    ensures StripRight(x + w) == x
  {
    if w == [] {
      assert x + w == x;
    } else {
      assert (x + w)[..|x + w| - 1] == x + w[..|w| - 1];
      StripRightSkipsWhitespace(x, w[..|w| - 1]);
    }
  }

  /** The text between two entries of a names list: a delimiter with whitespace in front of
      it and behind it, each side written as the user likes. */
  datatype Gap = Gap(before: string, after: string)

  predicate IsWhitespaceGap(g: Gap) {
    AllWhitespace(g.before) && AllWhitespace(g.after)
  }

  /** `xs` written out with `gaps[k]` between `xs[k]` and `xs[k + 1]`. */
  function JoinGaps(xs: seq<string>, gaps: seq<Gap>): (r: string)
    requires |xs| == |gaps| + 1
    decreases |gaps|
  {
    if gaps == [] then xs[0]
    else xs[0] + (gaps[0].before + ([DELIMITER] + (gaps[0].after + JoinGaps(xs[1..], gaps[1..]))))
  }

  predicate NoLeadingWhitespace(x: string) {
    x == [] || !IsJavaWhitespace(x[0])
  }

  predicate NoTrailingWhitespace(x: string) {
    x == [] || !IsJavaWhitespace(x[|x| - 1])
  }

  /** `xs[k]` is an entry that a split gives back unchanged at position `k`: it holds no
      delimiter, and it has no whitespace on a side where a delimiter touches it (every side
      except the start of the first entry and the end of the last). */
  predicate IsEntryAt(xs: seq<string>, k: int)
    requires 0 <= k < |xs|
  {
    && DELIMITER !in xs[k]
    && (k > 0 ==> NoLeadingWhitespace(xs[k]))
    && (k < |xs| - 1 ==> NoTrailingWhitespace(xs[k]))
  }

  predicate AreEntries(xs: seq<string>) {
    forall k :: 0 <= k < |xs| ==> IsEntryAt(xs, k)
  }

  predicate AreWhitespaceGaps(gaps: seq<Gap>) {
    forall k :: 0 <= k < |gaps| ==> IsWhitespaceGap(gaps[k])
  }

  lemma StripRightOfWhitespace(w: string)
    requires AllWhitespace(w)
    ensures StripRight(w) == []
  {
    var e: string := [];
    StripRightSkipsWhitespace(e, w);
    assert e + w == w;
  }

  lemma WhitespaceHasNoDelimiter(w: string)
    requires AllWhitespace(w)
    ensures DELIMITER !in w
  {
    assert forall k :: 0 <= k < |w| ==> w[k] != DELIMITER;
  }

  lemma IndexOfFirstDelimiter(a: string, t: string)
    requires DELIMITER !in a
    ensures IndexOfDelimiter(a + ([DELIMITER] + t)) == |a|
  {
    assert (a + ([DELIMITER] + t))[|a|] == DELIMITER;
  }

  /** One step of the scan: the first match splits off the text before the first `|`. */
  lemma PiecesStep(a: string, t: string)
    requires DELIMITER !in a
    ensures Pieces(a + ([DELIMITER] + t)) == [StripRight(a)] + Pieces(StripLeft(t))
  {
    var s := a + ([DELIMITER] + t);
    IndexOfFirstDelimiter(a, t);
    assert s[..|a|] == a;
    assert s[|a| + 1..] == t;
  }

  /** One step of the scan over a list of entries: the text before the first delimiter
      strips to the first entry, and the rest scans to the others. */
  lemma PiecesThroughMatch(s: string, a: string, t: string, xs: seq<string>)
    requires xs != [] && s == a + ([DELIMITER] + t)
    requires DELIMITER !in a && StripRight(a) == xs[0] && Pieces(StripLeft(t)) == xs[1..]
    ensures Pieces(s) == xs
  {
    PiecesStep(a, t);
    assert xs == [xs[0]] + xs[1..];
  }

  /** Whitespace in front of a leading delimiter only becomes part of the first, empty, piece. */
  lemma PiecesOfLeadingWhitespace(w: string, t: string)
    requires AllWhitespace(w)
    ensures Pieces(w + ([DELIMITER] + t)) == Pieces([DELIMITER] + t)
  {
    var e: string := [];
    WhitespaceHasNoDelimiter(w);
    PiecesStep(w, t);
    StripRightOfWhitespace(w);
    PiecesStep(e, t);
    assert e + ([DELIMITER] + t) == [DELIMITER] + t;
  }

  lemma JoinGapsCons(x: string, xs: seq<string>, g: Gap, gaps: seq<Gap>)
    requires |xs| == |gaps| + 1 && IsWhitespaceGap(g) && AreWhitespaceGaps(gaps)
    ensures AreWhitespaceGaps([g] + gaps)
    ensures JoinGaps([x] + xs, [g] + gaps)
         == x + (g.before + ([DELIMITER] + (g.after + JoinGaps(xs, gaps))))
  {
    assert ([x] + xs)[1..] == xs && ([g] + gaps)[1..] == gaps;
  }

  lemma PiecesAtMatch(s: string)
    requires IndexOfDelimiter(s) >= 0
    ensures var i := IndexOfDelimiter(s);
      Pieces(s) == [StripRight(s[..i])] + Pieces(StripLeft(s[i + 1..]))
  {
  }

  lemma StripRightRejoins(x: string) returns (w: string)
    ensures AllWhitespace(w) && StripRight(x) + w == x
  {
    StripRightCutsWhitespace(x);
    w := x[|StripRight(x)|..];
  }

  lemma StripLeftRejoins(x: string) returns (w: string)
    ensures AllWhitespace(w) && w + StripLeft(x) == x
  {
    StripLeftCutsWhitespace(x);
    w := x[..|x| - |StripLeft(x)|];
  }

  /** The text a match consumes around the delimiter at `i`: the whitespace in front of it
      and behind it, between the stripped text on either side. */
  lemma MatchAround(s: string, i: int) returns (g: Gap)
    requires 0 <= i < |s| && s[i] == DELIMITER
    ensures IsWhitespaceGap(g)
    ensures StripRight(s[..i]) + (g.before + ([DELIMITER] + (g.after + StripLeft(s[i + 1..])))) == s
  {
    var before := StripRightRejoins(s[..i]);
    var after := StripLeftRejoins(s[i + 1..]);
    g := Gap(before, after);
    CutAt(s, i);
    RegroupAroundDelimiter(StripRight(s[..i]), before, s[..i], after, StripLeft(s[i + 1..]), s[i + 1..]);
  }

  lemma CutAt(s: string, i: int)
    requires 0 <= i < |s|
    ensures s == s[..i] + ([s[i]] + s[i + 1..])
  {
  }

  lemma RegroupAroundDelimiter(p: string, w1: string, left: string, w2: string, q: string, right: string)
    requires p + w1 == left && w2 + q == right
    ensures p + (w1 + ([DELIMITER] + (w2 + q))) == left + ([DELIMITER] + right)
  {
  }

  /** One match put back: if the scan behind the first match rejoins, so does the whole. */
  lemma RejoinAtMatch(s: string, p: string, q: string, g: Gap, rest: seq<Gap>) returns (gaps: seq<Gap>)
    requires Pieces(s) == [p] + Pieces(q)
    requires IsWhitespaceGap(g) && p + (g.before + ([DELIMITER] + (g.after + q))) == s
    requires |rest| + 1 == |Pieces(q)| && AreWhitespaceGaps(rest) && JoinGaps(Pieces(q), rest) == q
    ensures |gaps| + 1 == |Pieces(s)| && AreWhitespaceGaps(gaps)
    ensures JoinGaps(Pieces(s), gaps) == s
  {
    gaps := [g] + rest;
    JoinGapsCons(p, Pieces(q), g, rest);
  }

  /** The first step of the scan, as parts: either no delimiter matches and the string is its
      only piece, or the first match cuts it into a stripped front `p`, the consumed gap `g`
      and a shorter rest `q` whose pieces follow `p`. */
  lemma FirstMatch(s: string) returns (found: bool, p: string, g: Gap, q: string)
    ensures !found ==> Pieces(s) == [s]
    ensures found ==> && |q| < |s| && Pieces(s) == [p] + Pieces(q) && IsWhitespaceGap(g)
                      && p + (g.before + ([DELIMITER] + (g.after + q))) == s
  {
    found := IndexOfDelimiter(s) >= 0;
    if !found {
      DelimiterFound(s);
      PiecesOfEntry(s);
      p, g, q := s, Gap([], []), [];
    } else {
      p, g, q := MatchAt(s);
    }
  }

  lemma MatchAt(s: string) returns (p: string, g: Gap, q: string)
    requires IndexOfDelimiter(s) >= 0
    ensures |q| < |s| && Pieces(s) == [p] + Pieces(q) && IsWhitespaceGap(g)
    ensures p + (g.before + ([DELIMITER] + (g.after + q))) == s
  {
    var i := IndexOfDelimiter(s);
    p, q := StripRight(s[..i]), StripLeft(s[i + 1..]);
    g := MatchAround(s, i);
    PiecesAtMatch(s);
  }

  /** The pieces of any string, put back together with the whitespace and delimiter that each
      match consumed, give the string again: the scan loses nothing but the delimiters and the
      whitespace touching them. */
  lemma {:induction false} PiecesRejoin(s: string) returns (gaps: seq<Gap>)
    ensures |gaps| + 1 == |Pieces(s)| && AreWhitespaceGaps(gaps)
    ensures JoinGaps(Pieces(s), gaps) == s
    decreases |s|
  {
    var found, p, g, q := FirstMatch(s);
    if !found {
      gaps := [];
    } else {
      var rest := PiecesRejoin(q);
      gaps := RejoinAtMatch(s, p, q, g, rest);
    }
  }

  /** An entry followed by a gap: the text up to the delimiter holds no delimiter and strips
      back to the entry. */
  lemma EntryBeforeGap(x: string, g: Gap, t: string)
    requires DELIMITER !in x && NoTrailingWhitespace(x) && IsWhitespaceGap(g)
    ensures x + (g.before + ([DELIMITER] + t)) == (x + g.before) + ([DELIMITER] + t)
    ensures DELIMITER !in x + g.before && StripRight(x + g.before) == x
  {
    WhitespaceHasNoDelimiter(g.before);
    NoDelimiterInConcat(x, g.before);
    StripRightSkipsWhitespace(x, g.before);
  }

  lemma NoDelimiterInConcat(a: string, b: string)
    requires DELIMITER !in a && DELIMITER !in b
    ensures DELIMITER !in a + b
  {
    assert forall k :: 0 <= k < |a + b| ==> (a + b)[k] == (if k < |a| then a[k] else b[k - |a|]);
  }

  /** Behind a match, the whitespace it took is gone; the next entry starts the text, unless it
      is empty, in which case the scan goes straight on to the next delimiter. */
  lemma EntryAfterMatch(xs: seq<string>, gaps: seq<Gap>, w: string) returns (a: string)
    requires AllWhitespace(w) && |xs| == |gaps| + 1 && gaps != [] && IsWhitespaceGap(gaps[0])
    requires DELIMITER !in xs[0] && NoLeadingWhitespace(xs[0]) && NoTrailingWhitespace(xs[0])
    ensures DELIMITER !in a && StripRight(a) == xs[0]
    ensures StripLeft(w + JoinGaps(xs, gaps))
         == a + ([DELIMITER] + (gaps[0].after + JoinGaps(xs[1..], gaps[1..])))
  {
    var g := gaps[0];
    var t := g.after + JoinGaps(xs[1..], gaps[1..]);
    EntryBeforeGap(xs[0], g, t);
    if xs[0] == [] {
      a := [];
      assert w + JoinGaps(xs, gaps) == (w + g.before) + ([DELIMITER] + t);
      StripLeftSkipsWhitespace(w + g.before, [DELIMITER] + t);
    } else {
      a := xs[0] + g.before;
      StripLeftSkipsWhitespace(w, a + ([DELIMITER] + t));
      assert (a + ([DELIMITER] + t))[0] == xs[0][0];
    }
  }

  /** Behind the first gap, the remaining entries and gaps are again entries and gaps. */
  lemma EntriesOfTail(xs: seq<string>, gaps: seq<Gap>)
    requires |xs| == |gaps| + 1 && gaps != [] && AreEntries(xs) && AreWhitespaceGaps(gaps)
    ensures AreEntries(xs[1..]) && NoLeadingWhitespace(xs[1..][0])
    ensures IsWhitespaceGap(gaps[0]) && AreWhitespaceGaps(gaps[1..])
  {
    forall k | 0 <= k < |xs| - 1
      ensures IsEntryAt(xs[1..], k)
    {
      assert IsEntryAt(xs, k + 1);
    }
    assert IsEntryAt(xs, 1);
  }

  lemma PiecesOfEntry(x: string)
    requires DELIMITER !in x
    ensures Pieces(x) == [x]
  {
    DelimiterFound(x);
  }

  /** Behind a match, a last entry is all that is left of the text. */
  lemma PiecesOfLastEntry(w: string, x: string)
    requires AllWhitespace(w) && DELIMITER !in x && NoLeadingWhitespace(x)
    ensures Pieces(StripLeft(w + x)) == [x]
  {
    StripLeftSkipsWhitespace(w, x);
    PiecesOfEntry(x);
  }

  /** The scan behind a match gives back the entries that follow it. */
  lemma {:induction false} PiecesAfterMatch(xs: seq<string>, gaps: seq<Gap>, w: string)
    requires AllWhitespace(w) && |xs| == |gaps| + 1 && AreWhitespaceGaps(gaps)
    requires AreEntries(xs) && NoLeadingWhitespace(xs[0])
    ensures Pieces(StripLeft(w + JoinGaps(xs, gaps))) == xs
    decreases |gaps|
  {
    assert IsEntryAt(xs, 0);
    if gaps == [] {
      PiecesOfLastEntry(w, xs[0]);
    } else {
      var g := gaps[0];
      EntriesOfTail(xs, gaps);
      var a := EntryAfterMatch(xs, gaps, w);
      PiecesAfterMatch(xs[1..], gaps[1..], g.after);
      PiecesThroughMatch(StripLeft(w + JoinGaps(xs, gaps)), a,
                         g.after + JoinGaps(xs[1..], gaps[1..]), xs);
    }
  }

  /** Entries written out with whitespace gaps scan back into exactly those entries. */
  lemma PiecesOfJoinGaps(xs: seq<string>, gaps: seq<Gap>)
    requires |xs| == |gaps| + 1 && AreWhitespaceGaps(gaps) && AreEntries(xs)
    ensures Pieces(JoinGaps(xs, gaps)) == xs
  {
    assert IsEntryAt(xs, 0);
    if gaps == [] {
      PiecesOfEntry(xs[0]);
    } else {
      var g := gaps[0];
      var t := g.after + JoinGaps(xs[1..], gaps[1..]);
      EntriesOfTail(xs, gaps);
      EntryBeforeGap(xs[0], g, t);
      PiecesAfterMatch(xs[1..], gaps[1..], g.after);
      PiecesThroughMatch(JoinGaps(xs, gaps), xs[0] + g.before, t, xs);
    }
  }

  /** Splitting entries written out with a delimiter between each two, with any whitespace of
      its own around each delimiter, gives the entries back: interior and leading empty
      entries survive, the first entry keeps its leading whitespace and the last its trailing
      whitespace, and only the whitespace that touches a delimiter is removed. The last entry
      must be non-empty unless it is the only one, since `split` drops trailing empty pieces. */
  lemma SplitJoinRoundTrip(xs: seq<string>, gaps: seq<Gap>)
    requires |xs| == |gaps| + 1 && AreWhitespaceGaps(gaps) && AreEntries(xs)
    requires gaps == [] || xs[|xs| - 1] != ""
    ensures Split(JoinGaps(xs, gaps)) == xs
  {
    if gaps == [] {
      assert IsEntryAt(xs, 0);
    } else {
      var s := JoinGaps(xs, gaps);
      PiecesOfJoinGaps(xs, gaps);
      assert s[|xs[0]| + |gaps[0].before|] == DELIMITER;
      assert DropTrailingEmpty(xs) == xs;
    }
  }

  /** A string in which every piece between delimiters is whitespace splits to nothing:
      all its pieces are empty and trailing. */
  lemma SplitOfOnlyDelimiters(w1: string, w2: string)
    requires AllWhitespace(w1) && AllWhitespace(w2)
    ensures Split(w1 + ([DELIMITER] + w2)) == []
  {
    var e: string := [];
    var s := w1 + ([DELIMITER] + w2);
    assert Pieces(s) == [e, e] by {
      assert forall k :: 0 <= k < |w1| ==> w1[k] != DELIMITER;
      PiecesStep(w1, w2);
      assert StripRight(w1) == e by {
        StripRightSkipsWhitespace(e, w1);
        assert e + w1 == w1;
      }
      assert StripLeft(w2) == e by {
        StripLeftSkipsWhitespace(w2, e);
        assert w2 + e == w2;
      }
      assert Pieces(e) == [e];
    }
    assert IndexOfDelimiter(s) >= 0 by {
      assert s[|w1|] == DELIMITER;
    }
    assert DropTrailingEmpty([e, e]) == [] by {
      assert DropTrailingEmpty([e]) == [];
    }
  }
}
