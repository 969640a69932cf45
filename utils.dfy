/**
 * lib/utils.tsx: the default analysis date (weekend rollback) and the splitting
 * of free text into plain-text and hyperlink parts.
 */
module Utils {
  import opened Wrappers
  import opened Text

  // ---------------------------------------------------------------------------
  // getDefaultDate

  /**
   * Day of the week of day number `d`, counted in days from 1970-01-01 (a Thursday),
   * numbered like `Date.prototype.getDay`: 0 is Sunday, 6 is Saturday.
   */
  function Weekday(d: int): (w: int)
    ensures 0 <= w < 7
  {
    (d + 4) % 7
  }

  const Sunday := 0
  const Saturday := 6

  /** Monday to Friday. */
  predicate IsWeekday(d: int) {
    Sunday < Weekday(d) < Saturday
  }

  lemma WeekdayOfPrevious(d: int)
    ensures Weekday(d - 1) == if Weekday(d) == 0 then 6 else Weekday(d) - 1
  {
  }

  /**
   * `getDefaultDate`: today, moved back one day on a Saturday and two days on a Sunday.
   * The result is the latest Monday-to-Friday day that is not after today.
   */
  method DefaultDate(today: int) returns (day: int)
    ensures Weekday(today) == Saturday ==> day == today - 1
    ensures Weekday(today) == Sunday ==> day == today - 2
    ensures IsWeekday(today) ==> day == today
    ensures IsWeekday(day) && today - 2 <= day <= today
    ensures forall k :: day < k <= today ==> !IsWeekday(k)
  {
    day := today;
    var dayOfWeek := Weekday(day);
    WeekdayOfPrevious(today);
    WeekdayOfPrevious(today - 1);
    if dayOfWeek == Saturday {
      day := day - 1;
    } else if dayOfWeek == Sunday {
      day := day - 2;
    }
  }

  // ---------------------------------------------------------------------------
  // renderWithLinks: the pattern /(https?:\/\/[^\s]+)/g

  /** End of the run of non-space characters that starts at `i`. */
  function RunEnd(s: string, i: nat): (j: nat)
    requires i <= |s|
    ensures i <= j <= |s|
    decreases |s| - i
  {
    if i < |s| && !IsSpace(s[i]) then RunEnd(s, i + 1) else i
  }

  /** The run holds no white space and stops at white space or at the end. */
  lemma {:induction false} RunEndIsMaximal(s: string, i: nat)
    requires i <= |s|
    ensures forall k :: i <= k < RunEnd(s, i) ==> !IsSpace(s[k])
    ensures RunEnd(s, i) < |s| ==> IsSpace(s[RunEnd(s, i)])
    decreases |s| - i
  {
    if i < |s| && !IsSpace(s[i]) {
      RunEndIsMaximal(s, i + 1);
    }
  }

  /** `http` at position `i`. */
  predicate HttpAt(s: string, i: nat) {
    i + 4 <= |s| && s[i] == 'h' && s[i + 1] == 't' && s[i + 2] == 't' && s[i + 3] == 'p'
  }

  /** `://` at position `i`. */
  predicate SlashesAt(s: string, i: nat) {
    i + 3 <= |s| && s[i] == ':' && s[i + 1] == '/' && s[i + 2] == '/'
  }

  /** Length of the `https?:\/\/` at position `i` (8 for `https://`, 7 for `http://`), or 0. */
  function SchemeLength(s: string, i: nat): nat
    requires i <= |s|
  {
    if !HttpAt(s, i) then 0
    else if i + 4 < |s| && s[i + 4] == 's' && SlashesAt(s, i + 5) then 8
    else if SlashesAt(s, i + 4) then 7
    else 0
  }

  /**
   * Length of the match of the pattern that starts at position `i` (0 when none):
   * a scheme followed by at least one more non-space character, the non-space run
   * taken as far as it goes.
   */
  function MatchLength(s: string, i: nat): (n: nat)
    requires i <= |s|
    ensures i + n <= |s|
  {
    var scheme := SchemeLength(s, i);
    var run := RunEnd(s, i) - i;
    if scheme > 0 && run > scheme then run else 0
  }

  /** `s.match(pattern) != null`: some position of `s` starts a match. */
  predicate HasMatchFrom(s: string, i: nat)
    requires i <= |s|
    decreases |s| - i
  {
    i < |s| && (MatchLength(s, i) > 0 || HasMatchFrom(s, i + 1))
  }

  predicate HasMatch(s: string) {
    HasMatchFrom(s, 0)
  }

  /** The match length at every position of `s`. */
  function MatchLengths(s: string): (lens: seq<nat>)
    ensures |lens| == |s| && Fits(lens)
  {
    seq(|s|, k requires 0 <= k < |s| => MatchLength(s, k))
  }

  /** Match lengths that never reach past the end of the text. */
  predicate Fits(lens: seq<nat>) {
    forall k :: 0 <= k < |lens| ==> k + lens[k] <= |lens|
  }

  /** The first position at or after `from` where a match starts, or `|lens|` when there is none. */
  function NextMatch(lens: seq<nat>, from: nat): (j: nat)
    requires from <= |lens|
    ensures from <= j <= |lens|
    ensures j < |lens| ==> lens[j] > 0
    decreases |lens| - from
  {
    if from == |lens| || lens[from] > 0 then from else NextMatch(lens, from + 1)
  }

  /** No match starts before the next one. */
  lemma {:induction false} NextMatchIsFirst(lens: seq<nat>, from: nat)
    requires from <= |lens|
    ensures forall k :: from <= k < NextMatch(lens, from) ==> lens[k] == 0
    decreases |lens| - from
  {
    if from < |lens| && lens[from] == 0 {
      NextMatchIsFirst(lens, from + 1);
    }
  }

  /** Ascending positions, none past `bound`. */
  predicate Chain(c: seq<nat>, bound: nat) {
    && (forall i :: 0 <= i < |c| ==> c[i] <= bound)
    && (forall i :: 0 <= i < |c| - 1 ==> c[i] <= c[i + 1])
  }

  /**
   * Where the pieces of `text.split(pattern)` begin and end, from `start` on: `start`,
   * the next match, the end of that match, the match after it, and so on, closed by
   * the end of the text.
   */
  function Cuts(lens: seq<nat>, start: nat): (c: seq<nat>)
    requires start <= |lens| && Fits(lens)
    ensures |c| >= 2 && c[0] == start && c[|c| - 1] == |lens|
    ensures Chain(c, |lens|)
    decreases |lens| - start
  {
    var j := NextMatch(lens, start);
    if j == |lens| then [start, |lens|]
    else [start, j] + Cuts(lens, j + lens[j])
  }

  /** The text between consecutive cuts. */
  function Slices(s: string, c: seq<nat>): (pieces: seq<string>)
    requires |c| >= 1 && Chain(c, |s|)
    ensures |pieces| == |c| - 1
    decreases |c|
  {
    if |c| == 1 then []
    else
      var tail := c[1..];
      assert forall i :: 0 <= i < |tail| ==> tail[i] == c[i + 1];
      [s[c[0]..c[1]]] + Slices(s, tail)
  }

  /** Each piece is the text between its two cuts. */
  lemma {:induction false} SliceAt(s: string, c: seq<nat>, i: nat)
    requires |c| >= 1 && Chain(c, |s|) && i < |c| - 1
    ensures c[i] <= c[i + 1] <= |s|
    ensures Slices(s, c)[i] == s[c[i]..c[i + 1]]
    decreases |c|
  {
    if i > 0 {
      var tail := c[1..];
      assert forall k :: 0 <= k < |tail| ==> tail[k] == c[k + 1];
      SliceAt(s, tail, i - 1);
    }
  }

  /**
   * `text.split(pattern)`: the text up to the first match, then the matched text (the
   * captured group), then the text up to the next match, and so on to the end.
   */
  function Split(s: string): (pieces: seq<string>)
    ensures |pieces| % 2 == 1
  {
    PiecesOdd(s, MatchLengths(s));
    Slices(s, Cuts(MatchLengths(s), 0))
  }

  /** One rendered part: plain text, or an anchor whose `href` and label are both `url`. */
  datatype Part = PlainText(text: string) | Link(url: string)

  /** The test each piece of the split undergoes (`part.match(urlRegex)`). */
  function Classify(piece: string): Part {
    if HasMatch(piece) then Link(piece) else PlainText(piece)
  }

  function PartText(p: Part): string {
    match p
    case PlainText(t) => t
    case Link(u) => u
  }

  function Concat(pieces: seq<string>): string {
    if pieces == [] then "" else pieces[0] + Concat(pieces[1..])
  }

  function RenderedText(parts: seq<Part>): string {
    if parts == [] then "" else PartText(parts[0]) + RenderedText(parts[1..])
  }

  /** `renderWithLinks`: `None` (React's `null`) for an absent or empty text. */
  function RenderWithLinks(text: Option<string>): (r: Option<seq<Part>>)
    ensures r.None? <==> text.None? || text.value == ""
    ensures r.Some? ==> |r.value| == |Split(text.value)|
  {
    if text.None? || text.value == "" then None
    else Some(seq(|Split(text.value)|, i requires 0 <= i < |Split(text.value)| => Classify(Split(text.value)[i])))
  }

  // ---------------------------------------------------------------------------
  // Properties of the split

  /** The match, if any, that starts at a position is seen identically through any window holding it. */
  lemma {:induction false} RunEndInWindow(s: string, a: nat, b: nat, k: nat)
    requires a <= b <= |s| && a + k <= b
    ensures RunEnd(s[a..b], k) - k <= RunEnd(s, a + k) - (a + k)
    ensures RunEnd(s, a + k) <= b ==> RunEnd(s[a..b], k) - k == RunEnd(s, a + k) - (a + k)
    decreases b - (a + k)
  {
    if a + k < b && !IsSpace(s[a + k]) {
      RunEndInWindow(s, a, b, k + 1);
    }
  }

  lemma SchemeInWindow(s: string, a: nat, b: nat, k: nat)
    requires a <= b <= |s| && a + k <= b
    ensures SchemeLength(s[a..b], k) > 0 ==> SchemeLength(s, a + k) == SchemeLength(s[a..b], k)
    ensures b - (a + k) >= 8 ==> SchemeLength(s, a + k) == SchemeLength(s[a..b], k)
  {
    var t := s[a..b];
    assert forall x :: k <= x < |t| ==> t[x] == s[a + x];
  }

  /** The scheme test agrees with the prefixes it stands for. */
  lemma SchemeLengthMeans(s: string, i: nat)
    requires i <= |s|
    ensures SchemeLength(s, i) == 8 <==> StartsWith(s[i..], "https://")
    ensures SchemeLength(s, i) == 7 <==> StartsWith(s[i..], "http://") && !StartsWith(s[i..], "https://")
    ensures SchemeLength(s, i) in {0, 7, 8}
  {
    var u := s[i..];
    if |u| >= 8 {
      assert StartsWith(u, "https://") <==> (u[0] == 'h' && u[1] == 't' && u[2] == 't' && u[3] == 'p'
        && u[4] == 's' && u[5] == ':' && u[6] == '/' && u[7] == '/') by {
        if u[..8] != "https://" {
          var d :| 0 <= d < 8 && u[..8][d] != "https://"[d];
        }
      }
    }
    if |u| >= 7 {
      assert StartsWith(u, "http://") <==> (u[0] == 'h' && u[1] == 't' && u[2] == 't' && u[3] == 'p'
        && u[4] == ':' && u[5] == '/' && u[6] == '/') by {
        if u[..7] != "http://" {
          var d :| 0 <= d < 7 && u[..7][d] != "http://"[d];
        }
      }
    }
  }

  /** A match inside a window is a match of the whole text at the same place. */
  lemma MatchInWindow(s: string, a: nat, b: nat, k: nat)
    requires a <= b <= |s| && a + k <= b
    ensures MatchLength(s[a..b], k) > 0 ==> MatchLength(s, a + k) > 0
  {
    RunEndInWindow(s, a, b, k);
    SchemeInWindow(s, a, b, k);
  }

  /** A window with no match start of the whole text contains no match. */
  lemma {:induction false} NoMatchInWindow(s: string, a: nat, b: nat, k: nat)
    requires a <= b <= |s| && a + k <= b
    requires forall j :: a + k <= j < b ==> MatchLength(s, j) == 0
    ensures !HasMatchFrom(s[a..b], k)
    decreases b - (a + k)
  {
    if a + k < b {
      MatchInWindow(s, a, b, k);
      NoMatchInWindow(s, a, b, k + 1);
    }
  }

  /** The matched text, read on its own, is one whole match. */
  lemma MatchedPieceMatches(s: string, i: nat)
    requires i <= |s| && MatchLength(s, i) > 0
    ensures var m := MatchLength(s, i);
      HasMatch(s[i..i + m]) && MatchLength(s[i..i + m], 0) == m
  {
    var m := MatchLength(s, i);
    RunEndInWindow(s, i, i + m, 0);
    SchemeInWindow(s, i, i + m, 0);
    assert s[i..i + m][0..] == s[i..i + m];
  }

  /** A piece that is one whole match. */
  predicate IsWholeMatch(piece: string) {
    HasMatch(piece) && MatchLength(piece, 0) == |piece|
  }

  lemma OddBeforeEven(i: nat, n: nat)
    requires i % 2 == 1 && n % 2 == 0 && i < n - 1
    ensures i + 2 < n
  {
  }

  lemma PiecesOdd(s: string, lens: seq<nat>)
    requires |lens| == |s| && Fits(lens)
    ensures |Slices(s, Cuts(lens, 0))| % 2 == 1
  {
    CutsEven(lens, 0);
  }

  /** The cuts come in pairs: the pieces are odd in number. */
  lemma {:induction false} CutsEven(lens: seq<nat>, start: nat)
    requires start <= |lens| && Fits(lens)
    ensures |Cuts(lens, start)| % 2 == 0
    decreases |lens| - start
  {
    var j := NextMatch(lens, start);
    if j < |lens| {
      var rest := Cuts(lens, j + lens[j]);
      CutsEven(lens, j + lens[j]);
      assert |Cuts(lens, start)| == |rest| + 2;
    }
  }

  /** Between cut `2p` and cut `2p + 1` no match starts. */
  lemma {:induction false} CutAtPlain(lens: seq<nat>, start: nat, p: nat)
    requires start <= |lens| && Fits(lens)
    requires 2 * p + 1 < |Cuts(lens, start)|
    ensures var c := Cuts(lens, start);
      forall k :: c[2 * p] <= k < c[2 * p + 1] ==> lens[k] == 0
    decreases |lens| - start
  {
    var j := NextMatch(lens, start);
    var c := Cuts(lens, start);
    NextMatchIsFirst(lens, start);
    if j == |lens| {
      assert c == [start, |lens|];
    } else {
      var rest := Cuts(lens, j + lens[j]);
      assert c == [start, j] + rest;
      if p > 0 {
        CutAtPlain(lens, j + lens[j], p - 1);
        assert c[2 * p] == rest[2 * (p - 1)] && c[2 * p + 1] == rest[2 * (p - 1) + 1];
      }
    }
  }

  /** Between cut `2p + 1` and cut `2p + 2` lies exactly the match that starts at the first. */
  lemma {:induction false} CutAtLink(lens: seq<nat>, start: nat, p: nat)
    requires start <= |lens| && Fits(lens)
    requires 2 * p + 2 < |Cuts(lens, start)|
    ensures var c := Cuts(lens, start);
      c[2 * p + 1] < |lens| && lens[c[2 * p + 1]] > 0 && c[2 * p + 2] == c[2 * p + 1] + lens[c[2 * p + 1]]
    decreases |lens| - start
  {
    var j := NextMatch(lens, start);
    var c := Cuts(lens, start);
    CutsPastFirst(lens, start);
    var rest := Cuts(lens, j + lens[j]);
    assert c == [start, j] + rest;
    if p > 0 {
      CutAtLink(lens, j + lens[j], p - 1);
      assert c[2 * p + 1] == rest[2 * (p - 1) + 1] && c[2 * p + 2] == rest[2 * (p - 1) + 2];
    }
  }

  /** More than two cuts means that a match was found. */
  lemma CutsPastFirst(lens: seq<nat>, start: nat)
    requires start <= |lens| && Fits(lens)
    requires |Cuts(lens, start)| > 2
    ensures NextMatch(lens, start) < |lens|
  {
  }

  lemma Halve(i: nat)
    ensures i % 2 == 0 ==> i == 2 * (i / 2)
    ensures i % 2 == 1 ==> i == 2 * (i / 2) + 1
  {
  }

  /** Joining the pieces gives back the text between the first and the last cut. */
  lemma {:induction false} ConcatSlices(s: string, c: seq<nat>)
    requires |c| >= 1 && Chain(c, |s|)
    ensures c[0] <= c[|c| - 1]
    ensures Concat(Slices(s, c)) == s[c[0]..c[|c| - 1]]
    decreases |c|
  {
    if |c| > 1 {
      var tail := c[1..];
      assert forall i :: 0 <= i < |tail| ==> tail[i] == c[i + 1];
      ConcatSlices(s, tail);
      var pieces := Slices(s, c);
      assert pieces[1..] == Slices(s, tail);
      SliceAt(s, c, 0);
      assert s[c[0]..c[|c| - 1]] == s[c[0]..c[1]] + s[c[1]..c[|c| - 1]];
    }
  }

  /** Joining the pieces gives back the text. */
  lemma SplitRoundTrip(s: string)
    ensures Concat(Split(s)) == s
  {
    ConcatSlices(s, Cuts(MatchLengths(s), 0));
    assert s[0..|s|] == s;
  }

  /**
   * Piece `i` of the split, for any fitting match lengths: it runs from `a` to `b`; an
   * even-numbered piece is a stretch where no match starts, an odd-numbered one is
   * exactly the match at `a`, and the piece after it begins at `b` and ends at `e`.
   */
  lemma PieceAt(s: string, lens: seq<nat>, i: nat) returns (a: nat, b: nat, e: nat)
    requires |lens| == |s| && Fits(lens)
    requires i < |Slices(s, Cuts(lens, 0))|
    ensures |Slices(s, Cuts(lens, 0))| % 2 == 1
    ensures a <= b <= e <= |s| && Slices(s, Cuts(lens, 0))[i] == s[a..b]
    ensures i % 2 == 0 ==> forall k :: a <= k < b ==> lens[k] == 0
    ensures i % 2 == 1 ==> a < |s| && lens[a] > 0 && b == a + lens[a]
    ensures i % 2 == 1 ==> i + 1 < |Slices(s, Cuts(lens, 0))| && Slices(s, Cuts(lens, 0))[i + 1] == s[b..e]
  {
    PiecesOdd(s, lens);
    Halve(i);
    if i % 2 == 1 {
      a, b, e := LinkPieceAt(s, lens, i / 2);
    } else {
      a, b := PlainPieceAt(s, lens, i / 2);
      e := b;
    }
  }

  /** Piece `2p` runs from `a` to `b` and no match starts inside it. */
  lemma PlainPieceAt(s: string, lens: seq<nat>, p: nat) returns (a: nat, b: nat)
    requires |lens| == |s| && Fits(lens)
    requires 2 * p < |Slices(s, Cuts(lens, 0))|
    ensures a <= b <= |s| && Slices(s, Cuts(lens, 0))[2 * p] == s[a..b]
    ensures forall k :: a <= k < b ==> lens[k] == 0
  {
    var c := Cuts(lens, 0);
    CutAtPlain(lens, 0, p);
    SliceAt(s, c, 2 * p);
    a, b := c[2 * p], c[2 * p + 1];
  }

  /** Piece `2p + 1` is exactly the match at `a`, and piece `2p + 2` runs from `b` to `e`. */
  lemma LinkPieceAt(s: string, lens: seq<nat>, p: nat) returns (a: nat, b: nat, e: nat)
    requires |lens| == |s| && Fits(lens)
    requires 2 * p + 1 < |Slices(s, Cuts(lens, 0))|
    ensures a <= b <= e <= |s| && Slices(s, Cuts(lens, 0))[2 * p + 1] == s[a..b]
    ensures a < |s| && lens[a] > 0 && b == a + lens[a]
    ensures 2 * p + 2 < |Slices(s, Cuts(lens, 0))| && Slices(s, Cuts(lens, 0))[2 * p + 2] == s[b..e]
  {
    var c := Cuts(lens, 0);
    CutsEven(lens, 0);
    OddBeforeEven(2 * p + 1, |c|);
    CutAtLink(lens, 0, p);
    SliceAt(s, c, 2 * p + 1);
    SliceAt(s, c, 2 * p + 2);
    a, b, e := c[2 * p + 1], c[2 * p + 2], c[2 * p + 3];
  }

  /**
   * Piece by piece: the even-numbered pieces hold no match and the odd-numbered ones are
   * one whole match each.
   */
  lemma PieceKinds(s: string, i: nat)
    requires i < |Split(s)|
    ensures |Split(s)| % 2 == 1
    ensures i % 2 == 0 ==> !HasMatch(Split(s)[i])
    ensures i % 2 == 1 ==> IsWholeMatch(Split(s)[i])
  {
    var lens := MatchLengths(s);
    var a, b, e := PieceAt(s, lens, i);
    if i % 2 == 0 {
      PlainPiece(s, lens, a, b);
    } else {
      assert lens[a] == MatchLength(s, a);
      MatchedPieceMatches(s, a);
    }
  }

  /** A stretch where no match starts holds no match. */
  lemma PlainPiece(s: string, lens: seq<nat>, a: nat, b: nat)
    requires lens == MatchLengths(s) && a <= b <= |s|
    requires forall k :: a <= k < b ==> lens[k] == 0
    ensures !HasMatch(s[a..b])
  {
    assert forall k :: a + 0 <= k < b ==> MatchLength(s, k) == 0 by {
      forall k | a + 0 <= k < b
        ensures MatchLength(s, k) == 0
      {
        assert lens[k] == 0;
      }
    }
    NoMatchInWindow(s, a, b, 0);
  }

  /** The piece after a link is empty or begins with white space. */
  lemma TextAfterLink(s: string, i: nat)
    requires i < |Split(s)| && i % 2 == 1
    ensures i + 1 < |Split(s)|
    ensures Split(s)[i + 1] == "" || IsSpace(Split(s)[i + 1][0])
  {
    var lens := MatchLengths(s);
    var a, b, e := PieceAt(s, lens, i);
    assert lens[a] == MatchLength(s, a);
    assert b == RunEnd(s, a);
    RunEndIsMaximal(s, a);
  }

  /**
   * The rendered parts alternate plain text and links, beginning and ending with
   * (possibly empty) plain text, so k links make 2k+1 parts; each link is one whole
   * match; no plain-text part contains a match; and together they spell the text.
   */
  lemma RenderAlternates(text: string)
    requires text != ""
    ensures var r := RenderWithLinks(Some(text));
      && r.Some?
      && |r.value| % 2 == 1
      && RenderedText(r.value) == text
      && (forall i :: 0 <= i < |r.value| ==> (r.value[i].Link? <==> i % 2 == 1))
      && (forall i :: 0 <= i < |r.value| && r.value[i].PlainText? ==> !HasMatch(r.value[i].text))
      && (forall i :: 0 <= i < |r.value| && r.value[i].Link? ==>
            MatchLength(r.value[i].url, 0) == |r.value[i].url|)
  {
    var pieces := Split(text);
    var parts := RenderWithLinks(Some(text)).value;
    forall i | 0 <= i < |pieces|
      ensures i % 2 == 0 ==> !HasMatch(pieces[i])
      ensures i % 2 == 1 ==> IsWholeMatch(pieces[i])
    {
      PieceKinds(text, i);
    }
    PieceKinds(text, 0);
    assert forall i :: 0 <= i < |parts| ==> PartText(parts[i]) == pieces[i];
    RenderedTextOfPieces(parts, pieces);
    SplitRoundTrip(text);
  }

  lemma {:induction false} RenderedTextOfPieces(parts: seq<Part>, pieces: seq<string>)
    requires |parts| == |pieces|
    requires forall i :: 0 <= i < |parts| ==> PartText(parts[i]) == pieces[i]
    ensures RenderedText(parts) == Concat(pieces)
  {
    if parts != [] {
      RenderedTextOfPieces(parts[1..], pieces[1..]);
    }
  }

  /**
   * Every link is a maximal run: it begins with `http://` or `https://`, holds no white
   * space, and the text after it is empty or begins with white space.
   */
  lemma LinksAreMaximalRuns(text: string, i: nat)
    requires text != ""
    requires var r := RenderWithLinks(Some(text)); r.Some? && i < |r.value| && r.value[i].Link?
    ensures var parts := RenderWithLinks(Some(text)).value; var url := parts[i].url;
      && (StartsWith(url, "http://") || StartsWith(url, "https://"))
      && (forall k :: 0 <= k < |url| ==> !IsSpace(url[k]))
      && i + 1 < |parts| && parts[i + 1].PlainText?
      && (parts[i + 1].text == "" || IsSpace(parts[i + 1].text[0]))
  {
    var pieces := Split(text);
    var parts := RenderWithLinks(Some(text)).value;
    assert parts[i] == Classify(pieces[i]);
    PieceKinds(text, i);
    assert i % 2 == 1;
    var url := pieces[i];
    assert MatchLength(url, 0) == |url|;
    SchemeLengthMeans(url, 0);
    assert url[0..] == url;
    RunEndIsMaximal(url, 0);
    TextAfterLink(text, i);
    assert parts[i + 1] == Classify(pieces[i + 1]);
    NextIsEven(i);
    PieceKinds(text, i + 1);
  }

  lemma NextIsEven(i: nat)
    requires i % 2 == 1
    ensures (i + 1) % 2 == 0
  {
  }
}
