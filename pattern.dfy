/**
 * The compiled path pattern. `compilePath` only ever builds regexes of the form
 * `^/` + p1 + `/` + ... + `/` + pn + `$` where each pi is a quoted literal without `/`
 * or the capture group `([^/]+)`. Such a regex is represented by its list of segments,
 * and its matching is stated segment by segment.
 */
module Pattern {
  import opened Wrappers
  import opened Text

  datatype Segment = Lit(text: string) | Param

  /** The number of capture groups of the pattern. */
  function ParamCount(segs: seq<Segment>): nat
    decreases |segs|
  {
    if segs == [] then 0 else (if segs[0].Param? then 1 else 0) + ParamCount(segs[1..])
  }

  lemma {:induction false} ParamCountAppend(a: seq<Segment>, b: seq<Segment>)
    ensures ParamCount(a + b) == ParamCount(a) + ParamCount(b)
    decreases |a|
  {
    if a == [] {
      assert a + b == b;
    } else {
      assert (a + b)[1..] == a[1..] + b;
      ParamCountAppend(a[1..], b);
    }
  }

  /** What `compilePath` can produce: at least one segment, literals free of `/`. */
  predicate WellFormed(segs: seq<Segment>) {
    |segs| >= 1 && forall i :: 0 <= i < |segs| && segs[i].Lit? ==> '/' !in segs[i].text
  }

  /** A value a `([^/]+)` group can capture. */
  predicate Capturable(v: string) {
    v != "" && '/' !in v
  }

  /**
   * Matching the `/`-separated pieces after the leading `/` against the segments:
   * a literal must be equal to its piece, a parameter captures its non-empty piece.
   * The result is the list of captures in pattern order.
   */
  function MatchPieces(segs: seq<Segment>, pieces: seq<string>): Option<seq<string>>
    decreases |segs|
  {
    if |segs| == 0 || |pieces| == 0 then
      (if |segs| == 0 && |pieces| == 0 then Some([]) else None)
    else
      match MatchPieces(segs[1..], pieces[1..])
      case None => None
      case Some(rest) =>
        match segs[0]
        case Lit(t) => if pieces[0] == t then Some(rest) else None
        case Param => if pieces[0] != "" then Some([pieces[0]] + rest) else None
  }

  /**
   * `PathRE.FindStringSubmatch(path)` with the whole match dropped: `Some(captures)` when the
   * anchored pattern matches `path`, `None` otherwise.
   */
  function Match(segs: seq<Segment>, path: string): Option<seq<string>> {
    if |path| > 0 && path[0] == '/' then MatchPieces(segs, Split(path[1..], '/')) else None
  }

  /** The concrete pieces a pattern stands for once each parameter takes its capture. */
  function Fill(segs: seq<Segment>, caps: seq<string>): (pieces: seq<string>)
    requires |caps| == ParamCount(segs)
    ensures |pieces| == |segs|
    decreases |segs|
  {
    if segs == [] then []
    else match segs[0]
      case Lit(t) => [t] + Fill(segs[1..], caps)
      case Param => [caps[0]] + Fill(segs[1..], caps[1..])
  }

  lemma {:induction false} MatchPiecesFill(segs: seq<Segment>, caps: seq<string>)
    requires |caps| == ParamCount(segs)
    requires forall i :: 0 <= i < |caps| ==> caps[i] != ""
    ensures MatchPieces(segs, Fill(segs, caps)) == Some(caps)
    decreases |segs|
  {
    if segs != [] {
      var pieces := Fill(segs, caps);
      match segs[0]
      case Lit(t) =>
        assert pieces[1..] == Fill(segs[1..], caps);
        MatchPiecesFill(segs[1..], caps);
      case Param =>
        assert pieces[1..] == Fill(segs[1..], caps[1..]);
        MatchPiecesFill(segs[1..], caps[1..]);
        assert [caps[0]] + caps[1..] == caps;
    }
  }

  lemma {:induction false} MatchPiecesSound(segs: seq<Segment>, pieces: seq<string>, caps: seq<string>)
    requires MatchPieces(segs, pieces) == Some(caps)
    ensures |caps| == ParamCount(segs)
    ensures forall i :: 0 <= i < |caps| ==> caps[i] != ""
    ensures pieces == Fill(segs, caps)
    decreases |segs|
  {
    if segs != [] {
      var rest := MatchPieces(segs[1..], pieces[1..]).value;
      MatchPiecesSound(segs[1..], pieces[1..], rest);
      assert pieces == [pieces[0]] + pieces[1..];
      match segs[0]
      case Lit(t) =>
      case Param =>
        assert caps == [pieces[0]] + rest;
        assert caps[1..] == rest;
    }
  }

  /**
   * Completeness: a path whose literal pieces are the pattern's literals and whose parameter
   * pieces are capturable values matches, and returns exactly those values in template order.
   */
  lemma MatchFill(segs: seq<Segment>, caps: seq<string>)
    requires WellFormed(segs)
    requires |caps| == ParamCount(segs)
    requires forall i :: 0 <= i < |caps| ==> Capturable(caps[i])
    ensures Match(segs, "/" + Join(Fill(segs, caps), '/')) == Some(caps)
  {
    var pieces := Fill(segs, caps);
    FillPieces(segs, caps);
    JoinSplit(pieces, '/');
    var path := "/" + Join(pieces, '/');
    assert path[1..] == Join(pieces, '/');
    MatchPiecesFill(segs, caps);
  }

  lemma {:induction false} FillPieces(segs: seq<Segment>, caps: seq<string>)
    requires forall i :: 0 <= i < |segs| && segs[i].Lit? ==> '/' !in segs[i].text
    requires |caps| == ParamCount(segs)
    requires forall i :: 0 <= i < |caps| ==> Capturable(caps[i])
    ensures forall i :: 0 <= i < |segs| ==> '/' !in Fill(segs, caps)[i]
    decreases |segs|
  {
    if segs != [] {
      var pieces := Fill(segs, caps);
      match segs[0]
      case Lit(t) =>
        FillPieces(segs[1..], caps);
        assert forall i :: 1 <= i < |segs| ==> pieces[i] == Fill(segs[1..], caps)[i - 1];
      case Param =>
        assert Capturable(caps[0]);
        FillPieces(segs[1..], caps[1..]);
        assert forall i :: 1 <= i < |segs| ==> pieces[i] == Fill(segs[1..], caps[1..])[i - 1];
    }
  }

  /**
   * Soundness: a path matches only if it is `/` followed by the pattern's pieces joined by `/`,
   * with one capturable value per parameter. So a differing literal, a different number of
   * pieces, or a `/` inside a would-be parameter value means no match.
   */
  lemma MatchSound(segs: seq<Segment>, path: string, caps: seq<string>)
    requires |segs| >= 1
    requires Match(segs, path) == Some(caps)
    ensures |caps| == ParamCount(segs)
    ensures forall i :: 0 <= i < |caps| ==> Capturable(caps[i])
    ensures path == "/" + Join(Fill(segs, caps), '/')
  {
    var pieces := Split(path[1..], '/');
    MatchPiecesSound(segs, pieces, caps);
    SplitJoin(path[1..], '/');
    assert path == "/" + path[1..];
    forall i | 0 <= i < |caps| ensures Capturable(caps[i]) {
      CapturedPiece(segs, pieces, caps, i);
    }
  }

  /** Each capture is one of the `/`-free pieces. */
  lemma {:induction false} CapturedPiece(segs: seq<Segment>, pieces: seq<string>, caps: seq<string>, i: nat)
    requires MatchPieces(segs, pieces) == Some(caps)
    requires i < |caps|
    ensures caps[i] in pieces
    decreases |segs|
  {
    var rest := MatchPieces(segs[1..], pieces[1..]).value;
    match segs[0]
    case Lit(t) =>
      CapturedPiece(segs[1..], pieces[1..], rest, i);
    case Param =>
      if i > 0 {
        CapturedPiece(segs[1..], pieces[1..], rest, i - 1);
      }
  }
}
