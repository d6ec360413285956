/** The in-memory backend: a map from paths to files, and what each operation does to it. */
module StateStore {
  import opened Wrappers
  import opened Seqs
  import opened Paths
  import Glob

  datatype FileData = FileData(content: string, encoding: string, createdAt: Option<nat>, modifiedAt: Option<nat>)

  type Files = map<BackendPath, FileData>

  datatype ReadResult = ReadResult(error: Option<string>, fileData: Option<FileData>)
  datatype WriteResult = WriteResult(path: string)
  datatype EditResult = EditResult(path: string, occurrences: nat)
  datatype GrepMatch = GrepMatch(path: string, line: nat, text: string)

  datatype BackendError =
    | FileNotFound(path: string)
    | NotMatched(path: string)
    | NotUnique(path: string, occurrences: nat)

  // ── Text ────────────────────────────────────────────────────────────

  function StripCr(line: string): string {
    if line != "" && line[|line| - 1] == '\r' then line[..|line| - 1] else line
  }

  /** `str::lines`, with `current` the part of the running line already read. */
  function LinesFrom(current: string, rest: string): seq<string>
    decreases |rest|
  {
    if rest == "" then (if current == "" then [] else [current])
    else if rest[0] == '\n' then [StripCr(current)] + LinesFrom("", rest[1..])
    else LinesFrom(current + [rest[0]], rest[1..])
  }

  function Lines(content: string): seq<string> {
    LinesFrom("", content)
  }

  function JoinLines(lines: seq<string>): string {
    if lines == [] then ""
    else if |lines| == 1 then lines[0]
    else lines[0] + "\n" + JoinLines(lines[1..])
  }

  predicate Contains(text: string, pattern: string) {
    pattern <= text || (text != "" && Contains(text[1..], pattern))
  }

  /** The pattern stands somewhere in the text. */
  ghost predicate Has(text: string, pattern: string) {
    exists k :: 0 <= k <= |text| && pattern <= text[k..]
  }

  lemma {:induction false} ContainsIff(text: string, pattern: string)
    ensures Contains(text, pattern) <==> Has(text, pattern)
    decreases |text|
  {
    assert text[0..] == text;
    if text != "" {
      ContainsIff(text[1..], pattern);
      assert forall k :: 0 <= k < |text| ==> text[1..][k..] == text[k + 1..];
      if Has(text, pattern) && !(pattern <= text) {
        var k :| 0 <= k <= |text| && pattern <= text[k..];
        assert text[1..][k - 1..] == text[k..];
      }
    }
  }

  /** Non-overlapping occurrences; the empty string occurs at every character boundary. */
  function Occurrences(content: string, oldText: string): nat
    decreases |content|
  {
    if oldText == "" then |content| + 1
    else if |content| < |oldText| then 0
    else if oldText <= content then 1 + Occurrences(content[|oldText|..], oldText)
    else Occurrences(content[1..], oldText)
  }

  function Interleave(content: string, newText: string): string {
    if content == "" then newText else newText + [content[0]] + Interleave(content[1..], newText)
  }

  function ReplaceAll(content: string, oldText: string, newText: string): string
    decreases |content|
  {
    if oldText == "" then Interleave(content, newText)
    else if |content| < |oldText| then content
    else if oldText <= content then newText + ReplaceAll(content[|oldText|..], oldText, newText)
    else [content[0]] + ReplaceAll(content[1..], oldText, newText)
  }

  function ReplaceFirst(content: string, oldText: string, newText: string): string
    decreases |content|
  {
    if |content| < |oldText| then content
    else if oldText <= content then newText + content[|oldText|..]
    else [content[0]] + ReplaceFirst(content[1..], oldText, newText)
  }

  // ── Pieces ──────────────────────────────────────────────────────────

  /** The pieces with the separator between them. */
  ghost function Joined(pieces: seq<string>, separator: string): string {
    if pieces == [] then ""
    else if |pieces| == 1 then pieces[0]
    else pieces[0] + separator + Joined(pieces[1..], separator)
  }

  /** A line that ended, without a carriage return right before its end. */
  ghost predicate IsEnded(piece: string, line: string) {
    piece == line + "\r" || (piece == line && forall before :: piece != before + "\r")
  }

  /**
   * The text is these pieces, one to a line; none holds a line's end. The last piece is a line of its own, as it is,
   * unless nothing follows the last line's end.
   */
  ghost predicate LinesAt(content: string, pieces: seq<string>, lines: seq<string>) {
    && pieces != [] && content == Joined(pieces, "\n") && (forall p <- pieces :: '\n' !in p)
    && var n := |pieces| - 1;
       && |lines| == (if pieces[n] == "" then n else n + 1)
       && (pieces[n] != "" ==> lines[n] == pieces[n]) && forall i :: 0 <= i < n ==> IsEnded(pieces[i], lines[i])
  }

  lemma StripsEnd(piece: string)
    ensures IsEnded(piece, StripCr(piece))
  {
    if piece != "" && piece[|piece| - 1] == '\r' {
      assert piece == StripCr(piece) + "\r";
    }
  }

  lemma LinesCons(content: string, pieces: seq<string>, lines: seq<string>, first: string)
    requires LinesAt(content, pieces, lines) && '\n' !in first
    ensures LinesAt(first + "\n" + content, [first] + pieces, [StripCr(first)] + lines)
  {
    StripsEnd(first);
    hide IsEnded, StripCr;
    JoinedCons(first, pieces, "\n");
    var all, out := [first] + pieces, [StripCr(first)] + lines;
    assert all[|all| - 1] == pieces[|pieces| - 1];
    forall i | 0 <= i < |all| - 1 ensures IsEnded(all[i], out[i]) {
      if i > 0 {
        assert all[i] == pieces[i - 1] && out[i] == lines[i - 1];
      }
    }
  }

  lemma LastLine(current: string)
    requires '\n' !in current
    ensures LinesAt(current, [current], if current == "" then [] else [current])
  {
  }

  lemma {:induction false} LinesFromCut(current: string, rest: string) returns (pieces: seq<string>)
    requires '\n' !in current
    ensures LinesAt(current + rest, pieces, LinesFrom(current, rest))
    decreases |rest|
  {
    hide LinesAt, StripCr;
    if rest == "" {
      LastLine(current);
      assert current + rest == current;
      return [current];
    }
    LineBegins(current, rest);
    if rest[0] == '\n' {
      var more := LinesFromCut("", rest[1..]);
      LinesCons(rest[1..], more, LinesFrom("", rest[1..]), current);
      pieces := [current] + more;
    } else {
      pieces := LinesFromCut(current + [rest[0]], rest[1..]);
    }
  }

  lemma LineBegins(current: string, rest: string)
    requires rest != ""
    ensures rest[0] == '\n' ==> current + "\n" + rest[1..] == current + rest && "" + rest[1..] == rest[1..]
    ensures current + [rest[0]] + rest[1..] == current + rest
  {
    assert rest == [rest[0]] + rest[1..];
  }

  /** The lines are the text cut at each line's end. */
  lemma LinesCut(content: string) returns (pieces: seq<string>)
    ensures LinesAt(content, pieces, Lines(content))
  {
    pieces := LinesFromCut("", content);
    assert "" + content == content;
  }

  // ── What replacing means ────────────────────────────────────────────

  /** No match starts in the piece, not even one that ends in what comes after it. */
  ghost predicate NoMatchIn(piece: string, after: string, oldText: string) {
    forall k :: 0 <= k < |piece| ==> !(oldText <= (piece + after)[k..])
  }

  ghost function Letters(content: string): seq<string> {
    seq(|content|, i requires 0 <= i < |content| => [content[i]])
  }

  /**
   * The content is these pieces with the old text between them, each match the leftmost one after the match before. The
   * empty text stands before each character and at the end.
   */
  ghost predicate Cuts(content: string, oldText: string, pieces: seq<string>) {
    && pieces != [] && content == Joined(pieces, oldText)
    && if oldText == "" then pieces == [""] + Letters(content) + [""]
       else forall i :: 0 <= i < |pieces| ==> NoMatchIn(pieces[i], if i < |pieces| - 1 then oldText else "", oldText)
  }

  /** The old text is found `n` times. */
  ghost predicate Matches(content: string, oldText: string, n: nat) {
    exists pieces :: Cuts(content, oldText, pieces) && |pieces| == n + 1
  }

  /** Every match of the old text gave way to the new. */
  ghost predicate Replaces(content: string, oldText: string, newText: string, result: string) {
    exists pieces :: Cuts(content, oldText, pieces) && result == Joined(pieces, newText)
  }

  lemma JoinedCons(first: string, pieces: seq<string>, separator: string)
    requires pieces != []
    ensures Joined([first] + pieces, separator) == first + separator + Joined(pieces, separator)
  {
    assert ([first] + pieces)[1..] == pieces;
  }

  /** One more character in front of the first piece. */
  lemma JoinedLonger(c: char, pieces: seq<string>, separator: string)
    requires pieces != []
    ensures Joined([[c] + pieces[0]] + pieces[1..], separator) == [c] + Joined(pieces, separator)
  {
    var longer := [[c] + pieces[0]] + pieces[1..];
    assert longer[1..] == pieces[1..];
    if |pieces| > 1 {
      var rest := Joined(pieces[1..], separator);
      assert [c] + pieces[0] + separator + rest == [c] + (pieces[0] + separator + rest);
    }
  }

  /** Nothing matches at the start: the first character belongs to the first piece. */
  lemma CutLonger(content: string, oldText: string, pieces: seq<string>)
    requires oldText != "" && content != "" && !(oldText <= content) && Cuts(content[1..], oldText, pieces)
    ensures Cuts(content, oldText, [[content[0]] + pieces[0]] + pieces[1..])
  {
    var c := content[0];
    var longer := [[c] + pieces[0]] + pieces[1..];
    JoinedLonger(c, pieces, oldText);
    assert content == [c] + content[1..];
    hide Joined;
    forall i | 0 <= i < |longer| ensures NoMatchIn(longer[i], if i < |longer| - 1 then oldText else "", oldText) {
      if i == 0 {
        var after := if |longer| > 1 then oldText else "";
        assert NoMatchIn(pieces[0], after, oldText);
        FirstPieceStarts(content, oldText, longer);
        forall k | 0 <= k < |longer[0]| ensures !(oldText <= (longer[0] + after)[k..]) {
          if k > 0 {
            assert (longer[0] + after)[k..] == (pieces[0] + after)[k - 1..];
          } else {
            assert (longer[0] + after)[0..] == longer[0] + after;
          }
        }
      } else {
        assert longer[i] == pieces[i];
      }
    }
  }

  lemma FirstPieceStarts(content: string, oldText: string, pieces: seq<string>)
    requires pieces != [] && content == Joined(pieces, oldText)
    ensures pieces[0] + (if |pieces| > 1 then oldText else "") <= content
  {
  }

  /** A match at the start: an empty piece, and the pieces of what follows it. */
  lemma CutMatch(content: string, oldText: string, pieces: seq<string>)
    requires oldText != "" && oldText <= content && Cuts(content[|oldText|..], oldText, pieces)
    ensures Cuts(content, oldText, [""] + pieces)
  {
    var more := [""] + pieces;
    JoinedCons("", pieces, oldText);
    assert content == "" + oldText + content[|oldText|..];
    hide Joined;
    forall i | 0 <= i < |more| ensures NoMatchIn(more[i], if i < |more| - 1 then oldText else "", oldText) {
      if i > 0 {
        assert more[i] == pieces[i - 1];
      }
    }
  }

  lemma {:induction false} JoinedLetters(content: string, separator: string)
    ensures Joined(Letters(content) + [""], separator) ==
            if content == "" then "" else [content[0]] + separator + Joined(Letters(content[1..]) + [""], separator)
  {
    if content != "" {
      assert Letters(content) + [""] == [[content[0]]] + (Letters(content[1..]) + [""]);
      JoinedCons([content[0]], Letters(content[1..]) + [""], separator);
    }
  }

  /** Letters with the empty text between them. */
  lemma {:induction false} LettersWhole(content: string)
    ensures Joined(Letters(content) + [""], "") == content
    decreases |content|
  {
    JoinedLetters(content, "");
    if content != "" {
      LettersWhole(content[1..]);
      hide Joined, Letters;
      assert [content[0]] + "" + content[1..] == content;
    }
  }

  /** Letters with a new text between them. */
  lemma {:induction false} LettersJoin(content: string, newText: string)
    ensures newText + Joined(Letters(content) + [""], newText) == Interleave(content, newText)
    decreases |content|
  {
    JoinedLetters(content, newText);
    if content == "" {
      assert newText + "" == newText;
    } else {
      LettersJoin(content[1..], newText);
      hide Joined, Letters;
      Regroup(newText, [content[0]], Joined(Letters(content[1..]) + [""], newText));
    }
  }

  lemma Regroup(a: string, b: string, c: string)
    ensures a + (b + a + c) == a + b + (a + c)
  {
  }

  /** The empty text is found before each letter and at the end. */
  lemma CutLetters(content: string, newText: string) returns (pieces: seq<string>)
    ensures Cuts(content, "", pieces) && |pieces| == |content| + 2
    ensures Joined(pieces, newText) == Interleave(content, newText)
  {
    pieces := [""] + Letters(content) + [""];
    var rest := Letters(content) + [""];
    assert pieces == [""] + rest;
    JoinedCons("", rest, "");
    JoinedCons("", rest, newText);
    LettersWhole(content);
    LettersJoin(content, newText);
    hide Joined, Interleave;
    assert "" + "" + content == content;
    assert "" + newText + Joined(rest, newText) == newText + Joined(rest, newText);
  }

  lemma CutWhole(content: string, oldText: string)
    requires |content| < |oldText|
    ensures Cuts(content, oldText, [content])
  {
  }

  /** Replacing finds the cut, counts its matches, and joins its pieces with the new text. */
  lemma {:induction false} ReplaceCuts(content: string, oldText: string, newText: string) returns (pieces: seq<string>)
    ensures Cuts(content, oldText, pieces) && |pieces| == Occurrences(content, oldText) + 1
    ensures ReplaceAll(content, oldText, newText) == Joined(pieces, newText)
    decreases |content|
  {
    if oldText == "" {
      pieces := CutLetters(content, newText);
    } else if |content| < |oldText| {
      CutWhole(content, oldText);
      pieces := [content];
    } else if oldText <= content {
      var rest := ReplaceCuts(content[|oldText|..], oldText, newText);
      CutMatch(content, oldText, rest);
      JoinedCons("", rest, newText);
      pieces := [""] + rest;
    } else {
      var rest := ReplaceCuts(content[1..], oldText, newText);
      CutLonger(content, oldText, rest);
      JoinedLonger(content[0], rest, newText);
      pieces := [[content[0]] + rest[0]] + rest[1..];
    }
  }

  /** There is one way to cut. */
  lemma {:induction false} CutsOnce(content: string, oldText: string, a: seq<string>, b: seq<string>)
    requires Cuts(content, oldText, a) && Cuts(content, oldText, b)
    ensures a == b
    decreases |a|
  {
    if oldText != "" {
      FirstPieceOnce(content, oldText, a, b);
      FirstPieceOnce(content, oldText, b, a);
      if |a| > 1 {
        CutRest(content, oldText, a);
        CutRest(content, oldText, b);
        CutsOnce(content[|a[0]| + |oldText|..], oldText, a[1..], b[1..]);
        assert a == [a[0]] + a[1..] && b == [b[0]] + b[1..];
      }
    }
  }

  lemma CutRest(content: string, oldText: string, a: seq<string>)
    requires oldText != "" && Cuts(content, oldText, a) && |a| > 1
    ensures |a[0]| + |oldText| <= |content| && Cuts(content[|a[0]| + |oldText|..], oldText, a[1..])
  {
    var rest := a[1..];
    assert content == (a[0] + oldText) + Joined(rest, oldText);
    assert content[|a[0]| + |oldText|..] == Joined(rest, oldText);
    forall i | 0 <= i < |rest| ensures NoMatchIn(rest[i], if i < |rest| - 1 then oldText else "", oldText) {
      assert rest[i] == a[i + 1];
    }
  }

  /** The first piece is what stands before the first match. */
  lemma FirstMatch(content: string, oldText: string, a: seq<string>)
    requires oldText != "" && Cuts(content, oldText, a)
    ensures a[0] <= content && forall k :: 0 <= k < |a[0]| ==> !(oldText <= content[k..])
    ensures if |a| == 1 then a[0] == content else |a[0]| <= |content| && oldText <= content[|a[0]|..]
  {
    FirstPieceStarts(content, oldText, a);
    var after := if |a| > 1 then oldText else "";
    assert NoMatchIn(a[0], after, oldText);
    forall k | 0 <= k < |a[0]| ensures !(oldText <= content[k..]) {
      if oldText <= content[k..] {
        MatchInside(content, a[0], oldText, k, |a| > 1);
      }
    }
    if |a| > 1 {
      assert content[|a[0]|..][..|oldText|] == (a[0] + oldText)[|a[0]|..];
    }
  }

  /** A match that starts in the first piece ends before the old text after it does. */
  lemma MatchInside(content: string, piece: string, oldText: string, k: nat, more: bool)
    requires oldText != "" && k < |piece| && k <= |content| && oldText <= content[k..]
    requires if more then piece + oldText <= content else piece == content
    ensures oldText <= (piece + if more then oldText else "")[k..]
  {
    var all := piece + if more then oldText else "";
    assert all <= content && k + |oldText| <= |all|;
    assert all[k..][..|oldText|] == content[k..][..|oldText|];
  }

  /** The first piece is no longer than another cut's. */
  lemma FirstPieceOnce(content: string, oldText: string, a: seq<string>, b: seq<string>)
    requires oldText != "" && Cuts(content, oldText, a) && Cuts(content, oldText, b)
    ensures |a[0]| <= |b[0]| && (|a[0]| == |b[0]| ==> a[0] == b[0]) && (|b| > 1 && |a[0]| == |b[0]| ==> |a| > 1)
  {
    FirstMatch(content, oldText, a);
    FirstMatch(content, oldText, b);
    hide Cuts;
  }

  lemma MatchesIff(content: string, oldText: string, n: nat)
    ensures Matches(content, oldText, n) <==> n == Occurrences(content, oldText)
  {
    hide Cuts;
    var pieces := ReplaceCuts(content, oldText, "");
    if Matches(content, oldText, n) {
      var other :| Cuts(content, oldText, other) && |other| == n + 1;
      CutsOnce(content, oldText, pieces, other);
    }
  }

  lemma ReplacesIff(content: string, oldText: string, newText: string, result: string)
    ensures Replaces(content, oldText, newText, result) <==> result == ReplaceAll(content, oldText, newText)
  {
    hide Cuts;
    var pieces := ReplaceCuts(content, oldText, newText);
    if Replaces(content, oldText, newText, result) {
      var other :| Cuts(content, oldText, other) && result == Joined(other, newText);
      CutsOnce(content, oldText, pieces, other);
    }
  }

  /** A unique match is replaced the same way by both variants of `edit`. */
  lemma {:induction false} UniqueReplacement(content: string, oldText: string, newText: string)
    requires oldText != "" && Occurrences(content, oldText) <= 1
    ensures ReplaceAll(content, oldText, newText) == ReplaceFirst(content, oldText, newText)
    decreases |content|
  {
    if |content| >= |oldText| {
      if oldText <= content {
        NothingToReplace(content[|oldText|..], oldText, newText);
      } else {
        UniqueReplacement(content[1..], oldText, newText);
      }
    }
  }

  lemma {:induction false} NothingToReplace(content: string, oldText: string, newText: string)
    requires oldText != "" && Occurrences(content, oldText) == 0
    ensures ReplaceAll(content, oldText, newText) == content
    decreases |content|
  {
    if |content| >= |oldText| {
      NothingToReplace(content[1..], oldText, newText);
    }
  }

  // ── Operations ──────────────────────────────────────────────────────

  function Min(a: nat, b: nat): nat {
    if a < b then a else b
  }

  ghost function Slice(content: string, offset: nat, limit: nat): string {
    var lines := Lines(content);
    var start := Min(offset, |lines|);
    var end := if limit == 0 then |lines| else Min(start + limit, |lines|);
    JoinLines(lines[start..end])
  }

  ghost function ReadFile(files: Files, path: BackendPath, offset: nat, limit: nat): ReadResult {
    if path !in files then ReadResult(Some("file_not_found"), None)
    else ReadResult(None, Some(files[path].(content := Slice(files[path].content, offset, limit))))
  }

  /** A first write leaves the creation time unset; a rewrite keeps it, or sets it if unset. */
  ghost function WriteFile(files: Files, path: BackendPath, content: string, now: nat): Files {
    var created := if path !in files then None
                   else if files[path].createdAt.Some? then files[path].createdAt
                   else Some(now);
    files[path := FileData(content, "utf-8", created, Some(now))]
  }

  /** Nothing for `lines` to drop: no final newline, and no carriage return before a newline. */
  ghost predicate Lossless(content: string) {
    && (content != "" ==> content[|content| - 1] != '\n')
    && forall i, j :: 0 <= i < j < |content| && j == i + 1 ==> !(content[i] == '\r' && content[j] == '\n')
  }

  lemma {:induction false} LosslessTail(current: string, tail: string)
    requires Lossless(current + "\n" + tail)
    ensures StripCr(current) == current && tail != "" && Lossless(tail)
  {
    var all, n := current + "\n" + tail, |current|;
    assert all[n] == '\n' && forall k :: 0 <= k < |tail| ==> tail[k] == all[n + 1 + k];
    forall i, j | 0 <= i < j < |tail| && j == i + 1 ensures !(tail[i] == '\r' && tail[j] == '\n') {
      assert !(all[n + 1 + i] == '\r' && all[n + 1 + j] == '\n');
    }
    if n > 0 {
      assert all[n - 1] == current[n - 1] && all[n - 1] != '\r';
    }
  }

  lemma {:induction false} TailLossless(current: string, tail: string)
    requires '\n' !in current && StripCr(current) == current && tail != "" && Lossless(tail)
    ensures Lossless(current + "\n" + tail)
  {
    var all, n := current + "\n" + tail, |current|;
    assert forall k :: 0 <= k < |tail| ==> tail[k] == all[n + 1 + k];
    forall i, j | 0 <= i < j < |all| && j == i + 1 ensures !(all[i] == '\r' && all[j] == '\n') {
      if j < n {
        assert all[j] in current;
      } else if j > n + 1 {
        assert !(tail[i - n - 1] == '\r' && tail[j - n - 1] == '\n');
      }
    }
  }

  /** One more line in front: what is dropped of it, or after it, shortens the whole. */
  lemma LineInFront(current: string, tail: string, rest: string, joined: string)
    requires |rest| <= |tail| && (rest != tail ==> |rest| < |tail|)
    requires joined == if tail == "" then StripCr(current) else StripCr(current) + "\n" + rest
    ensures var all := current + "\n" + tail;
            && |joined| <= |all| && (joined != all ==> |joined| < |all|)
            && (joined == all <==> StripCr(current) == current && tail != "" && rest == tail)
  {
  }

  lemma JoinCons(first: string, lines: seq<string>)
    ensures JoinLines([first] + lines) == if lines == [] then first else first + "\n" + JoinLines(lines)
  {
    assert ([first] + lines)[1..] == lines;
  }

  lemma {:induction false} JoinLinesFrom(current: string, rest: string)
    requires '\n' !in current
    ensures var joined, all := JoinLines(LinesFrom(current, rest)), current + rest;
            && |joined| <= |all| && (joined != all ==> |joined| < |all|)
            && (joined == all <==> Lossless(all)) && (LinesFrom(current, rest) == [] <==> all == "")
    decreases |rest|
  {
    if rest == "" {
      assert current + rest == current;
    } else if rest[0] == '\n' {
      var tail := rest[1..];
      var lines := LinesFrom("", tail);
      assert "" + tail == tail && current + rest == current + "\n" + tail;
      JoinLinesFrom("", tail);
      JoinCons(StripCr(current), lines);
      LineInFront(current, tail, JoinLines(lines), JoinLines([StripCr(current)] + lines));
      if StripCr(current) == current && tail != "" && Lossless(tail) {
        TailLossless(current, tail);
      } else if Lossless(current + "\n" + tail) {
        LosslessTail(current, tail);
      }
    } else {
      assert (current + [rest[0]]) + rest[1..] == current + rest;
      JoinLinesFrom(current + [rest[0]], rest[1..]);
    }
  }

  lemma {:induction false} WholeIffLossless(content: string)
    ensures Slice(content, 0, 0) == content <==> Lossless(content)
  {
    JoinLinesFrom("", content);
    assert "" + content == content;
    var lines := Lines(content);
    assert lines[0..|lines|] == lines;
  }

  /** A written file reads back unchanged exactly when reading by lines has nothing to drop. */
  lemma {:induction false} ReadsBackIff(files: Files, path: BackendPath, content: string, now: nat)
    ensures var r := ReadFile(WriteFile(files, path, content, now), path, 0, 0);
            r.fileData.Some? && (r.fileData.value.content == content <==> Lossless(content))
  {
    WholeIffLossless(content);
  }

  lemma {:induction false} JoinConcat(a: seq<string>, b: seq<string>)
    requires a != [] && b != []
    ensures JoinLines(a + b) == JoinLines(a) + "\n" + JoinLines(b)
    decreases |a|
  {
    assert (a + b)[1..] == a[1..] + b && (a + b)[0] == a[0];
    if |a| > 1 {
      JoinConcat(a[1..], b);
      var rest, tail := JoinLines(a[1..]), JoinLines(b);
      assert a[0] + "\n" + (rest + "\n" + tail) == a[0] + "\n" + rest + "\n" + tail;
    } else {
      assert (a + b)[1..] == b;
    }
  }

  /** Two pages in a row, the second possibly open-ended, are the one page over both, split at a line break. */
  lemma {:induction false} PagesJoin(content: string, offset: nat, n: nat, m: nat)
    requires 0 < n && offset + n < |Lines(content)|
    ensures Slice(content, offset, n) + "\n" + Slice(content, offset + n, m) ==
            Slice(content, offset, if m == 0 then 0 else n + m)
  {
    var lines := Lines(content);
    var end := if m == 0 then |lines| else Min(offset + n + m, |lines|);
    JoinConcat(lines[offset..offset + n], lines[offset + n..end]);
    assert lines[offset..end] == lines[offset..offset + n] + lines[offset + n..end];
  }

  /** Replacing trades each occurrence of the old text for one of the new. */
  lemma {:induction false} ReplaceLength(content: string, oldText: string, newText: string)
    requires oldText != ""
    ensures |ReplaceAll(content, oldText, newText)| + Occurrences(content, oldText) * |oldText| ==
            |content| + Occurrences(content, oldText) * |newText|
    decreases |content|
  {
    if |content| < |oldText| {
    } else if oldText <= content {
      var n := Occurrences(content[|oldText|..], oldText);
      ReplaceLength(content[|oldText|..], oldText, newText);
      OneMore(n, |oldText|);
      OneMore(n, |newText|);
    } else {
      ReplaceLength(content[1..], oldText, newText);
    }
  }

  lemma OneMore(n: nat, k: nat)
    ensures (1 + n) * k == n * k + k
  {
  }

  const U32 := 0x1_0000_0000

  ghost function EditFile(files: Files, path: BackendPath, oldText: string, newText: string, all: bool, now: nat)
    : (Files, Result<EditResult, BackendError>)
  {
    if path !in files then (files, Err(FileNotFound(path)))
    else
      var data := files[path];
      var n := Occurrences(data.content, oldText);
      if n == 0 then (files, Err(NotMatched(path)))
      else if !all && n > 1 then (files, Err(NotUnique(path, n)))
      else
        var content := if all then ReplaceAll(data.content, oldText, newText)
            else ReplaceFirst(data.content, oldText, newText);
        (files[path := data.(content := content, modifiedAt := Some(now))],
         Ok(EditResult(path, if all then n % U32 else 1)))
  }

  /** Whether a grep restricted to a scope prefix and a glob looks into a file at all. */
  predicate Selected(p: string, scope: string, filter: Option<string>) {
    scope <= p && (filter.Some? ==> Glob.CharMatch(filter.value, p))
  }

  /** The path begins with the scope, and splits along the filter's pattern if there is one. */
  ghost predicate Searched(p: string, scope: string, filter: Option<string>) {
    && |scope| <= |p| && p[..|scope|] == scope
    && match filter case Some(pat) => Glob.Matches(Glob.Tokens(pat), p) case None => true
  }

  lemma SelectedIff(p: string, scope: string, filter: Option<string>)
    ensures Selected(p, scope, filter) <==> Searched(p, scope, filter)
  {
    if filter.Some? {
      Glob.GlobIsExact(filter.value, p);
    }
  }

  /** The matching lines of one file, numbered from one. */
  ghost function FileMatches(p: string, content: string, pattern: string): set<GrepMatch> {
    set i | 0 <= i < |Lines(content)| && Has(Lines(content)[i], pattern) :: GrepMatch(p, i + 1, Lines(content)[i])
  }

  /** All matching lines of all selected files. */
  ghost function GrepSet(files: Files, pattern: string, scope: string, filter: Option<string>): set<GrepMatch> {
    set p, m | p in files && Searched(p, scope, filter) && m in FileMatches(p, files[p].content, pattern) :: m
  }

  ghost function Doomed(files: Files, path: BackendPath): set<BackendPath> {
    set k | k in files && (k == path || path + "/" <= k)
  }

  ghost function DeleteFile(files: Files, path: BackendPath): Result<Files, BackendError> {
    if Doomed(files, path) == {} then Err(FileNotFound(path)) else Ok(files - Doomed(files, path))
  }

  /** Deleting anything but the root removes exactly the path and everything below it. */
  lemma {:induction false} DeleteIsSubtree(files: Files, path: BackendPath)
    requires path != "/"
    ensures Doomed(files, path) == set k | k in files && IsAncestorOf(path, k)
  {
    NormalIsRender(path);
    assert Segments(path) != [];
    JoinEnd(Segments(path));
    assert path[|path| - 1] == Join(Segments(path))[|Join(Segments(path))| - 1];
    forall k | k in files ensures (k == path || path + "/" <= k) <==> IsAncestorOf(path, k) {
      if path <= k && |path| < |k| && k[|path|] == '/' {
        assert k[..|path| + 1] == path + "/";
      }
    }
  }

  lemma {:induction false} NoDoubleSlash(k: BackendPath)
    ensures k != ROOT ==> |k| > 1 && k[1] != '/'
  {
    NormalIsRender(k);
    if Segments(k) != [] {
      JoinEnd(Segments(k));
      assert k[1] == Join(Segments(k))[0];
    }
  }

  /** Deleting the root never removes anything else: no normal path starts with two slashes. */
  lemma {:induction false} DeleteRootMissesChildren(files: Files)
    ensures Doomed(files, ROOT) <= {"/"}
    ensures "/" !in files ==> DeleteFile(files, ROOT) == Err(FileNotFound("/"))
  {
    forall k | k in Doomed(files, ROOT) ensures k == ROOT {
      NoDoubleSlash(k);
      assert |ROOT + "/"| == 2 && (ROOT + "/")[1] == '/';
    }
  }

  lemma DoomedIs(files: Files, path: BackendPath)
    ensures Doomed(files, path) <= files.Keys
    ensures path != "/" ==> files.Keys - Doomed(files, path) == set k | k in files && !IsAncestorOf(path, k)
    ensures path == "/" ==> files.Keys - Doomed(files, path) == files.Keys - {"/"}
  {
    if path == "/" {
      DeleteRootMissesChildren(files);
    } else {
      DeleteIsSubtree(files, path);
    }
  }

  predicate Listed(prefix: BackendPath, key: BackendPath) {
    key != prefix && prefix <= key && (prefix[|prefix| - 1] == '/' || (|prefix| < |key| && key[|prefix|] == '/'))
  }

  /** `ls` lists exactly the files strictly below the path. */
  lemma {:induction false} ListingIsBelow(prefix: BackendPath, key: BackendPath)
    ensures Listed(prefix, key) <==> key != prefix && Segments(prefix) <= Segments(key)
  {
    AncestorIsSegmentPrefix(prefix, key);
    NormalIsRender(prefix);
  }

  /**
   * Only `path` changed: its text and modification time are new, its creation time is kept, or set on the first
   * rewrite.
   */
  ghost predicate IsWritten(before: Files, after: Files, path: BackendPath, content: string, now: nat) {
    && after.Keys == before.Keys + {path} && (forall k :: k in before && k != path ==> after[k] == before[k])
    && after[path].content == content && after[path].encoding == "utf-8" && after[path].modifiedAt == Some(now)
    && (after[path].createdAt.None? <==> path !in before)
    && (path in before && before[path].createdAt.Some? ==> after[path].createdAt == before[path].createdAt)
    && (path in before && before[path].createdAt.None? ==> after[path].createdAt == Some(now))
  }

  /** Only `path` changed: every match is replaced and the modification time is new. */
  ghost predicate IsEdited(before: Files, after: Files, path: BackendPath, oldText: string, newText: string, now: nat) {
    && path in before && after.Keys == before.Keys && (forall k :: k in before && k != path ==> after[k] == before[k])
    && Replaces(before[path].content, oldText, newText, after[path].content)
    && after[path].encoding == before[path].encoding && after[path].createdAt == before[path].createdAt
    && after[path].modifiedAt == Some(now)
  }

  /** The file is missing, has no match, or has several where one was wanted. */
  ghost predicate WhyNotEdited(files: Files, path: BackendPath, oldText: string, all: bool, e: BackendError) {
    match e
    case FileNotFound(p) => p == path && path !in files
    case NotMatched(p) => p == path && path in files && Matches(files[path].content, oldText, 0)
    case NotUnique(p, n) => !all && p == path && path in files && n > 1 && Matches(files[path].content, oldText, n)
  }

  /**
   * An edit: every match replaced and counted, in 32 bits, with at least one match, and no more than one unless all are
   * wanted; or else nothing changed.
   */
  ghost predicate Edits(before: Files, after: Files, path: BackendPath, oldText: string, newText: string, all: bool,
                        now: nat, r: Result<EditResult, BackendError>)
  {
    match r
    case Ok(done) =>
      && IsEdited(before, after, path, oldText, newText, now) && done.path == path
      && exists n: nat :: Matches(before[path].content, oldText, n) && n > 0 && (!all ==> n == 1)
                          && done.occurrences == n % U32
    case Err(e) => after == before && WhyNotEdited(before, path, oldText, all, e)
  }

  /** There is one way to write, and one to edit. */
  lemma WrittenIsWriteFile(before: Files, after: Files, path: BackendPath, content: string, now: nat)
    ensures IsWritten(before, after, path, content, now) <==> after == WriteFile(before, path, content, now)
  {
    var one := WriteFile(before, path, content, now);
    if IsWritten(before, after, path, content, now) {
      assert after[path] == one[path];
      assert after.Keys == one.Keys;
    }
  }

  lemma EditedIsEditFile(before: Files, after: Files, path: BackendPath, a: string, b: string, all: bool, now: nat,
                         r: Result<EditResult, BackendError>)
    ensures Edits(before, after, path, a, b, all, now, r) <==> (after, r) == EditFile(before, path, a, b, all, now)
  {
    var (one, q) := EditFile(before, path, a, b, all, now);
    EditFileEdits(before, path, a, b, all, now);
    if Edits(before, after, path, a, b, all, now, r) {
      EditsOnce(before, path, a, b, all, now, after, r, one, q);
    }
  }

  lemma TextFound(content: string, a: string, b: string)
    ensures forall n :: Matches(content, a, n) <==> n == Occurrences(content, a)
    ensures forall text :: Replaces(content, a, b, text) <==> text == ReplaceAll(content, a, b)
  {
    forall n ensures Matches(content, a, n) <==> n == Occurrences(content, a) {
      MatchesIff(content, a, n);
    }
    forall text ensures Replaces(content, a, b, text) <==> text == ReplaceAll(content, a, b) {
      ReplacesIff(content, a, b, text);
    }
  }

  lemma EditFileEdits(before: Files, path: BackendPath, a: string, b: string, all: bool, now: nat)
    ensures var (after, r) := EditFile(before, path, a, b, all, now); Edits(before, after, path, a, b, all, now, r)
  {
    hide Matches, Replaces, Occurrences, ReplaceAll, ReplaceFirst;
    if path in before {
      var content := before[path].content;
      TextFound(content, a, b);
      if Occurrences(content, a) <= 1 {
        OnlyOneToReplace(content, a, b);
      }
      assert Matches(content, a, Occurrences(content, a));
    }
  }

  lemma EditsOnce(before: Files, path: BackendPath, a: string, b: string, all: bool, now: nat, after: Files,
                  r: Result<EditResult, BackendError>, after': Files, r': Result<EditResult, BackendError>)
    requires Edits(before, after, path, a, b, all, now, r) && Edits(before, after', path, a, b, all, now, r')
    ensures (after, r) == (after', r')
  {
    hide Matches, Replaces, Occurrences, ReplaceAll;
    if path in before {
      TextFound(before[path].content, a, b);
      if r.Ok? && r'.Ok? {
        assert after[path] == after'[path];
        assert after == after';
      }
    }
  }

  ghost predicate SameStamps(a: FileData, b: FileData) {
    a.encoding == b.encoding && a.createdAt == b.createdAt && a.modifiedAt == b.modifiedAt
  }

  lemma {:induction false} OnlyOneToReplace(content: string, oldText: string, newText: string)
    requires Occurrences(content, oldText) <= 1
    ensures ReplaceAll(content, oldText, newText) == ReplaceFirst(content, oldText, newText)
  {
    if oldText == "" {
      assert content == "" && newText + content[|oldText|..] == newText;
    } else {
      UniqueReplacement(content, oldText, newText);
    }
  }

  /** The backend object: one shared, mutable map. */
  class StateBackend {
    var files: Files

    constructor ()
      ensures files == map[]
    {
      files := map[];
    }

    /** The requested page of the file; all lines from the first give the text itself iff it is lossless. */
    method Read(path: BackendPath, offset: nat, limit: nat) returns (r: ReadResult)
      ensures path !in files ==> r == ReadResult(Some("file_not_found"), None)
      ensures path in files ==> r.error.None? && r.fileData.Some? && SameStamps(r.fileData.value, files[path])
      ensures path in files ==> r.fileData.value.content == Slice(files[path].content, offset, limit)
      ensures path in files && offset == 0 && limit == 0 ==>
                (r.fileData.value.content == files[path].content <==> Lossless(files[path].content))
    {
      if path !in files {
        return ReadResult(Some("file_not_found"), None);
      }
      var data := files[path];
      var lines := Lines(data.content);
      var start := Min(offset, |lines|);
      var end := if limit == 0 then |lines| else Min(start + limit, |lines|);
      WholeIffLossless(data.content);
      return ReadResult(None, Some(data.(content := JoinLines(lines[start..end]))));
    }

    /** Only this file changes; a file that is new has no creation time until it is written again. */
    method Write(path: BackendPath, content: string, now: nat) returns (r: WriteResult)
      modifies this
      ensures r.path == path
      ensures IsWritten(old(files), files, path, content, now)
    {
      var created: Option<nat> := None;
      if path in files {
        created := if files[path].createdAt.Some? then files[path].createdAt else Some(now);
      }
      files := files[path := FileData(content, "utf-8", created, Some(now))];
      return WriteResult(path);
    }

    /**
     * Fails, changing nothing, on a missing file, on no match, and on several when only one is wanted.
     * Otherwise every match is replaced, only this file's text and modification time change, and the number
     * of matches is reported in 32 bits.
     */
    method Edit(path: BackendPath, oldText: string, newText: string, all: bool, now: nat)
      returns (r: Result<EditResult, BackendError>)
      modifies this
      ensures Edits(old(files), files, path, oldText, newText, all, now, r)
    {
      EditedIsEditFile(files, EditFile(files, path, oldText, newText, all, now).0, path, oldText, newText, all, now,
          EditFile(files, path, oldText, newText, all, now).1);
      hide Edits, Occurrences, ReplaceAll, ReplaceFirst;
      if path !in files {
        return Err(FileNotFound(path));
      }
      var data := files[path];
      var n := Occurrences(data.content, oldText);
      if n == 0 {
        return Err(NotMatched(path));
      }
      if !all && n > 1 {
        return Err(NotUnique(path, n));
      }
      var content := if all then ReplaceAll(data.content, oldText, newText)
          else ReplaceFirst(data.content, oldText, newText);
      files := files[path := data.(content := content, modifiedAt := Some(now))];
      return Ok(EditResult(path, if all then n % U32 else 1));
    }

    /** Removes the path and all below it, of the root only the root itself; fails if there is nothing to remove. */
    method Delete(path: BackendPath) returns (r: Result<(), BackendError>)
      modifies this
      ensures path != "/" ==> files.Keys == set k | k in old(files) && !IsAncestorOf(path, k)
      ensures path == "/" ==> files.Keys == old(files).Keys - {"/"}
      ensures forall k <- files :: k in old(files) && files[k] == old(files)[k]
      ensures r == if files == old(files) then Err(FileNotFound(path)) else Ok(())
    {
      hide IsAncestorOf;
      DoomedIs(files, path);
      var found := set k | k in files && (k == path || path + "/" <= k);
      if found == {} {
        return Err(FileNotFound(path));
      }
      RemoveAll(found);
      r := Ok(());
    }

    method RemoveAll(keys: set<BackendPath>)
      modifies this
      ensures files == old(files) - keys
    {
      ghost var before := files;
      var todo := keys;
      while todo != {}
        invariant todo <= keys && files == before - (keys - todo)
      {
        var k :| k in todo;
        files := files - {k};
        todo := todo - {k};
      }
    }

    /** Files in whatever order the map yields them, lines in order; every matching line once. */
    method Grep(pattern: string, scope: string, filter: Option<string>) returns (r: seq<GrepMatch>)
      ensures NoDup(r) && Elems(r) == GrepSet(files, pattern, scope, filter)
    {
      r := GrepAll(files, pattern, scope, filter);
    }
  }

  method GrepAll(files: Files, pattern: string, scope: string, filter: Option<string>) returns (r: seq<GrepMatch>)
    ensures NoDup(r) && Elems(r) == GrepSet(files, pattern, scope, filter)
  {
    r := [];
    var todo := files.Keys;
    ghost var done: Files := map[];
    while todo != {}
      invariant todo <= files.Keys && done.Keys == files.Keys - todo
      invariant forall p :: p in done ==> done[p] == files[p]
      invariant NoDup(r) && Elems(r) == GrepSet(done, pattern, scope, filter)
    {
      var p :| p in todo;
      todo := todo - {p};
      GrepOneMore(done, p, files[p], pattern, scope, filter);
      SelectedIff(p, scope, filter);
      done := done[p := files[p]];
      if Selected(p, scope, filter) {
        var found := GrepFile(p, files[p].content, pattern);
        AppendFresh(r, found, p);
        r := r + found;
      }
    }
    assert done == files;
  }

  method GrepFile(p: string, content: string, pattern: string) returns (found: seq<GrepMatch>)
    ensures NoDup(found) && Elems(found) == FileMatches(p, content, pattern)
  {
    hide Contains, Has;
    found := [];
    var lines := Lines(content);
    for i := 0 to |lines|
      invariant Elems(found) == set j | 0 <= j < i && Has(lines[j], pattern) :: GrepMatch(p, j + 1, lines[j])
      invariant forall m <- Elems(found) :: m.line <= i
      invariant NoDup(found)
    {
      ContainsIff(lines[i], pattern);
      if Contains(lines[i], pattern) {
        var m := GrepMatch(p, i + 1, lines[i]);
        assert m !in Elems(found);
        assert Elems(found + [m]) == Elems(found) + {m};
        found := found + [m];
      }
    }
  }

  /** Adding a file adds exactly its own matches, which no other file has. */
  lemma {:induction false} GrepOneMore(done: Files, p: BackendPath, data: FileData, pattern: string,
                                       scope: string, filter: Option<string>)
    requires p !in done
    ensures GrepSet(done[p := data], pattern, scope, filter)
         == GrepSet(done, pattern, scope, filter)
            + (if Searched(p, scope, filter) then FileMatches(p, data.content, pattern) else {})
    ensures forall m <- GrepSet(done, pattern, scope, filter) :: m.path != p
  {
    var more := done[p := data];
    forall m | m in GrepSet(done, pattern, scope, filter)
      ensures m.path != p && m in GrepSet(more, pattern, scope, filter)
    {
      var q :| q in done && Searched(q, scope, filter) && m in FileMatches(q, done[q].content, pattern);
      assert q in more && more[q] == done[q];
    }
    if Searched(p, scope, filter) {
      forall m | m in FileMatches(p, data.content, pattern) ensures m in GrepSet(more, pattern, scope, filter) {
        assert p in more;
      }
    }
  }

  lemma {:induction false} AppendFresh(r: seq<GrepMatch>, found: seq<GrepMatch>, p: string)
    requires NoDup(r) && NoDup(found)
    requires (forall m <- Elems(found) :: m.path == p) && (forall m <- Elems(r) :: m.path != p)
    ensures NoDup(r + found) && Elems(r + found) == Elems(r) + Elems(found)
  {
    var all := r + found;
    forall i, j | 0 <= i < j < |all| ensures all[i] != all[j] {
      if i < |r| <= j {
        assert all[i] in Elems(r) && all[j] in Elems(found);
      }
    }
  }
}
