/** The in-memory store's glob matcher against a declarative meaning of patterns. */
module Glob {

  /** The matcher itself: patterns and paths are byte strings. */
  predicate CharMatch(pat: string, path: string)
    decreases |pat| + |path|
  {
    if pat == "" then path == ""
    else if pat[0] == '*' then
      if |pat| > 1 && pat[1] == '*' then
        if path == "" then CharMatch(pat[2..], path)
        else CharMatch(pat[2..], path) || CharMatch(pat, path[1..])
      else if path == "" || path[0] == '/' then
        CharMatch(pat[1..], path)
      else
        CharMatch(pat[1..], path) || CharMatch(pat, path[1..])
    else if path == "" then false
    else if pat[0] == '?' || pat[0] == path[0] then CharMatch(pat[1..], path[1..])
    else false
  }

  // ── What a pattern means ────────────────────────────────────────────

  datatype Token = AnyRun | NameRun | AnyOne | Lit(c: char)

  /** Reads a pattern left to right, two stars together counting as one token. */
  ghost function Tokens(pat: string): seq<Token> {
    if pat == "" then []
    else if pat[0] == '*' && |pat| > 1 && pat[1] == '*' then [AnyRun] + Tokens(pat[2..])
    else if pat[0] == '*' then [NameRun] + Tokens(pat[1..])
    else if pat[0] == '?' then [AnyOne] + Tokens(pat[1..])
    else [Lit(pat[0])] + Tokens(pat[1..])
  }

  /** The pieces of path a token stands for. */
  ghost predicate Stands(t: Token, piece: string) {
    match t
    case AnyRun => true
    case NameRun => '/' !in piece
    case AnyOne => |piece| == 1
    case Lit(c) => piece == [c]
  }

  ghost function Flatten(pieces: seq<string>): string {
    if pieces == [] then "" else pieces[0] + Flatten(pieces[1..])
  }

  /** `pieces` cuts `path` into one piece per token. */
  ghost predicate Splits(tokens: seq<Token>, path: string, pieces: seq<string>) {
    && |pieces| == |tokens|
    && (forall i :: 0 <= i < |tokens| ==> Stands(tokens[i], pieces[i]))
    && Flatten(pieces) == path
  }

  /** The path can be cut into consecutive pieces, one for each token of the pattern. */
  ghost predicate Matches(tokens: seq<Token>, path: string) {
    exists pieces :: Splits(tokens, path, pieces)
  }

  lemma {:induction false} MatchesNil(path: string)
    ensures Matches([], path) <==> path == ""
  {
    if path == "" {
      assert Splits([], path, []);
    }
  }

  /** A first piece of any length, then the rest. */
  lemma {:induction false} MatchesCons(t: Token, rest: seq<Token>, path: string)
    ensures Matches([t] + rest, path) <==>
            exists k :: 0 <= k <= |path| && Stands(t, path[..k]) && Matches(rest, path[k..])
  {
    var tokens := [t] + rest;
    if Matches(tokens, path) {
      var pieces :| Splits(tokens, path, pieces);
      var k := |pieces[0]|;
      assert path[..k] == pieces[0] && path[k..] == Flatten(pieces[1..]);
      assert Splits(rest, path[k..], pieces[1..]) by {
        forall i | 0 <= i < |rest| ensures Stands(rest[i], pieces[1..][i]) {
          assert Stands(tokens[i + 1], pieces[i + 1]);
        }
      }
    }
    if k :| 0 <= k <= |path| && Stands(t, path[..k]) && Matches(rest, path[k..]) {
      var pieces :| Splits(rest, path[k..], pieces);
      var all := [path[..k]] + pieces;
      assert all[1..] == pieces && path[..k] + path[k..] == path;
      forall i | 0 <= i < |tokens| ensures Stands(tokens[i], all[i]) {
        if i > 0 {
          assert Stands(rest[i - 1], pieces[i - 1]);
        }
      }
      assert Splits(tokens, path, all);
    }
  }

  /** A run either stops here or takes one more byte, if it may. */
  lemma {:induction false} RunStep(t: Token, rest: seq<Token>, path: string)
    requires t.AnyRun? || t.NameRun?
    ensures Matches([t] + rest, path) <==>
            || Matches(rest, path)
            || (path != "" && (t.AnyRun? || path[0] != '/') && Matches([t] + rest, path[1..]))
  {
    MatchesCons(t, rest, path);
    assert path[..0] == "" && path[0..] == path;
    if path != "" {
      MatchesCons(t, rest, path[1..]);
      forall k | 0 <= k <= |path[1..]| ensures path[..k + 1] == [path[0]] + path[1..][..k]
         && path[k + 1..] == path[1..][k..] {
      }
      if Matches([t] + rest, path) && !Matches(rest, path) {
        var k :| 0 <= k <= |path| && Stands(t, path[..k]) && Matches(rest, path[k..]);
        assert k > 0 && path[..k][0] == path[0] && path[..k] == [path[0]] + path[1..][..k - 1];
        assert Stands(t, path[1..][..k - 1]) && Matches(rest, path[1..][k - 1..]);
      }
      if (t.AnyRun? || path[0] != '/') && Matches([t] + rest, path[1..]) {
        var k :| 0 <= k <= |path[1..]| && Stands(t, path[1..][..k]) && Matches(rest, path[1..][k..]);
        assert Stands(t, path[..k + 1]) && Matches(rest, path[k + 1..]);
      }
    }
  }

  /** A single-byte token takes exactly the first byte. */
  lemma {:induction false} OneStep(t: Token, rest: seq<Token>, path: string)
    requires t.AnyOne? || t.Lit?
    ensures Matches([t] + rest, path) <==> path != "" && Stands(t, [path[0]]) && Matches(rest, path[1..])
  {
    MatchesCons(t, rest, path);
    if path != "" {
      assert path[..1] == [path[0]];
    }
  }

  /** The matcher says yes exactly when the path splits along the pattern. */
  lemma {:induction false} GlobIsExact(pat: string, path: string)
    ensures CharMatch(pat, path) <==> Matches(Tokens(pat), path)
    decreases |pat| + |path|
  {
    if pat == "" {
      MatchesNil(path);
    } else if pat[0] == '*' {
      var double := |pat| > 1 && pat[1] == '*';
      var rest := if double then pat[2..] else pat[1..];
      RunStep(if double then AnyRun else NameRun, Tokens(rest), path);
      GlobIsExact(rest, path);
      if path != "" {
        GlobIsExact(pat, path[1..]);
      }
    } else {
      OneStep(if pat[0] == '?' then AnyOne else Lit(pat[0]), Tokens(pat[1..]), path);
      if path != "" {
        GlobIsExact(pat[1..], path[1..]);
      }
    }
  }
}
