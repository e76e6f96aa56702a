/**
 * The block-state bookkeeping of the DSL syntax highlighter (dslhighlighter.cpp): the
 * state a line leaves for the next one, packed into one int as brace depth and comment
 * flag, the brace depth and folding indent tracked while the line's tokens are
 * formatted, and the parenthesis records the editor uses for matching and folding.
 */
module Highlighter {
  import opened Wrappers
  import opened TextUtil
  import opened FormatterTypes

  // ---------------------------------------------------------------- the packed block state

  /** The block state of a block that has none (QTextBlock::userState before a first highlight). */
  const NoState: int := -1

  /** Two's-complement wrap-around to a 32-bit int. */
  function Int32(x: int): (r: int)
    ensures -0x8000_0000 <= r < 0x8000_0000
    ensures -0x8000_0000 <= x < 0x8000_0000 ==> r == x
  {
    (x + 0x8000_0000) % 0x1_0000_0000 - 0x8000_0000
  }

  /**
   * `(braceDepth << 8) | state` with `state` 0 or 1, on 32-bit ints: the shifted depth
   * has its low 8 bits clear, so the `|` adds the flag.
   */
  function EncodeBlockState(braceDepth: int, inComment: bool): int {
    Int32(braceDepth * 256) + (if inComment then 1 else 0)
  }

  /** `previousState >> 8`: an arithmetic shift, which rounds towards minus infinity. */
  function DecodeBraceDepth(previousState: int): int {
    previousState / 256
  }

  /** `previousState & 0xff` of a two's-complement int. */
  function DecodeStateByte(previousState: int): int {
    previousState % 256
  }

  /**
   * The packed state round-trips for every brace depth that fits in 24 bits: it is never
   * the "no state" value, and the next line decodes the same depth and comment flag.
   */
  lemma BlockStateRoundTrip(braceDepth: int, inComment: bool)
    requires -0x80_0000 <= braceDepth < 0x80_0000
    ensures EncodeBlockState(braceDepth, inComment) != NoState
    ensures DecodeBraceDepth(EncodeBlockState(braceDepth, inComment)) == braceDepth
    ensures (DecodeStateByte(EncodeBlockState(braceDepth, inComment)) != 0) == inComment
  {
    var s := if inComment then 1 else 0;
    assert Int32(braceDepth * 256) == braceDepth * 256;
  }

  // ---------------------------------------------------------------- the per-line state on values

  /** The text-format categories the highlighter assigns. */
  datatype TextStyle = CComment | CString | CNumber | CKeyword | CParentheses | CVisualWhitespace | CText

  /** One `setFormat(start, length, style)` call. */
  datatype Format = Format(start: int, length: int, style: TextStyle)

  datatype ParenKind = Opened | Closed

  /** TextEditor::Parenthesis: kind, character and position in the block. */
  datatype Parenthesis = Parenthesis(kind: ParenKind, ch: char, pos: int)

  /**
   * The highlighter's per-line state: brace depth, folding indent, comment flag, the
   * parentheses of the line, the formats set so far, and the two folding flags of the
   * block's user data.
   */
  datatype HState = HState(braceDepth: int, foldingIndent: int, inComment: bool,
                           parens: seq<Parenthesis>, formats: seq<Format>,
                           startIncluded: bool, endIncluded: bool)

  /** The characters that open a folding level: `{`, `[` and the comment marker `+`. */
  predicate IsFoldOpener(c: char) {
    c == '{' || c == '[' || c == '+'
  }

  /** The characters that close a folding level: `}`, `]` and the comment marker `-`. */
  predicate IsFoldCloser(c: char) {
    c == '}' || c == ']' || c == '-'
  }

  /**
   * `onBlockStart`: no parentheses, flags cleared, and brace depth and comment flag
   * decoded from the previous block's state (depth 0 and no comment when it has none);
   * the folding indent starts at the brace depth.
   */
  function BlockStart(previousState: int): (r: HState)
    ensures r.parens == [] && r.formats == [] && !r.startIncluded && !r.endIncluded
    ensures r.foldingIndent == r.braceDepth
  {
    var depth := if previousState != NoState then DecodeBraceDepth(previousState) else 0;
    var inComment := previousState != NoState && DecodeStateByte(previousState) != 0;
    HState(depth, depth, inComment, [], [], false, false)
  }

  /** A line decodes exactly the depth and comment flag the previous line stored. */
  lemma NextLineResumes(braceDepth: int, inComment: bool)
    requires -0x80_0000 <= braceDepth < 0x80_0000
    ensures BlockStart(EncodeBlockState(braceDepth, inComment)).braceDepth == braceDepth
    ensures BlockStart(EncodeBlockState(braceDepth, inComment)).foldingIndent == braceDepth
    ensures BlockStart(EncodeBlockState(braceDepth, inComment)).inComment == inComment
  {
    BlockStateRoundTrip(braceDepth, inComment);
  }

  /** A block without a previous state starts at depth 0, outside a comment. */
  lemma FirstLineStartsClean()
    ensures BlockStart(NoState) == HState(0, 0, false, [], [], false, false)
  {
  }

  /** `onOpeningParenthesis`: one Opened record; a folding opener deepens the nesting. */
  function Opening(s: HState, p: char, pos: int, atStart: bool): (r: HState)
    ensures r.parens == s.parens + [Parenthesis(Opened, p, pos)]
    ensures r.braceDepth == s.braceDepth + (if IsFoldOpener(p) then 1 else 0)
    ensures r.foldingIndent == s.foldingIndent && r.inComment == s.inComment && r.formats == s.formats
    ensures r.startIncluded == (s.startIncluded || (IsFoldOpener(p) && atStart))
    ensures r.endIncluded == s.endIncluded
  {
    var s1 := if IsFoldOpener(p) then s.(braceDepth := s.braceDepth + 1, startIncluded := s.startIncluded || atStart) else s;
    s1.(parens := s.parens + [Parenthesis(Opened, p, pos)])
  }

  /**
   * `onClosingParenthesis`: one Closed record; a folding closer lowers the nesting, and
   * unless it is the line's last token the folding indent drops to the new depth.
   */
  function Closing(s: HState, p: char, pos: int, atEnd: bool): (r: HState)
    ensures r.parens == s.parens + [Parenthesis(Closed, p, pos)]
    ensures r.braceDepth == s.braceDepth - (if IsFoldCloser(p) then 1 else 0)
    ensures r.foldingIndent <= s.foldingIndent
    ensures IsFoldCloser(p) && !atEnd ==> r.foldingIndent <= r.braceDepth
    ensures IsFoldCloser(p) && !atEnd ==>
      r.foldingIndent == if r.braceDepth < s.foldingIndent then r.braceDepth else s.foldingIndent
    ensures !(IsFoldCloser(p) && !atEnd) ==> r.foldingIndent == s.foldingIndent
    ensures r.inComment == s.inComment && r.formats == s.formats && r.startIncluded == s.startIncluded
    ensures r.endIncluded == (s.endIncluded || (IsFoldCloser(p) && atEnd))
  {
    var s1 :=
      if !IsFoldCloser(p) then s
      else
        var d := s.braceDepth - 1;
        if atEnd then s.(braceDepth := d, endIncluded := true)
        else s.(braceDepth := d, foldingIndent := if d < s.foldingIndent then d else s.foldingIndent);
    s1.(parens := s.parens + [Parenthesis(Closed, p, pos)])
  }

  /** The style `highlightBlock` gives a token type. */
  function StyleOf(kind: TokenKind): TextStyle {
    if kind == StringLiteral then CString
    else if kind == IntLiteral || kind == RealLiteral then CNumber
    else if kind == TrueLiteral || kind == FalseLiteral then CKeyword
    else if kind == LineComment || kind == MultiLineComment then CComment
    else if kind == LeftParen || kind == RightParen || kind == LeftBrace || kind == RightBrace
         || kind == LeftBracket || kind == RightBracket then CParentheses
    else if kind == NewLine || kind == WhiteSpace then CVisualWhitespace
    else CText
  }

  /** A token location is valid when it has a token type. */
  predicate IsValidToken(t: Token) {
    t.kind != InvalidToken
  }

  /**
   * Whether a comment token leaves the comment open: its text is too short to hold both
   * markers, or it does not end with the closing marker, which occupies the token's last
   * two characters.  In the three-character token slash, star, slash the star belongs to
   * the opening marker, so that token is open.
   */
  predicate CommentLeftOpen(blockText: string, t: Token) {
    t.length < 4 || !OccursAt(blockText, "*/", t.End() - 2)
  }

  /**
   * The test as the source writes it, `midRef(end() - 1, 2)` differs from the closing marker: the two characters
   * from the token's last character on.  A two-character string equal to the marker
   * only comes out of `midRef` when both characters lie in the text at that offset.
   */
  predicate CommentLeftOpenAsWritten(blockText: string, t: Token) {
    !OccursAt(blockText, "*/", t.End() - 1)
  }

  /**
   * With the test as written, a comment that is closed on its line still counts as
   * open: the text `/* a */` is one comment token, and the test says open.
   */
  lemma ClosedCommentSeenAsOpen()
    ensures var text := "/* a */";
      var t := Token(0, 7, MultiLineComment);
      CommentLeftOpenAsWritten(text, t) && !CommentLeftOpen(text, t)
  {
    var text := "/* a */";
    assert text[5..7] == "*/";
  }

  /** A comment token made of the opening marker, a body and the closing marker closes the comment. */
  lemma ClosedCommentToken(blockText: string, t: Token, body: string)
    requires 0 <= t.start <= t.End() <= |blockText|
    requires blockText[t.start..t.End()] == "/*" + body + "*/"
    ensures !CommentLeftOpen(blockText, t)
  {
    var text := blockText[t.start..t.End()];
    assert blockText[t.End() - 2..t.End()] == text[|text| - 2..];
    assert text[|text| - 2..] == "*/";
  }

  /** A comment token that starts with the opening marker and holds no closing marker after it leaves the comment open. */
  lemma UnclosedCommentToken(blockText: string, t: Token)
    requires 0 <= t.start && t.length >= 2 && t.End() <= |blockText|
    requires blockText[t.start..t.start + 2] == "/*"
    requires forall j :: t.start + 2 <= j <= t.End() - 2 ==> !OccursAt(blockText, "*/", j)
    ensures CommentLeftOpen(blockText, t)
  {
  }

  /** The three-character comment token whose middle star opens it and, read from the end, would seem to close it, is open. */
  lemma OverlappingMarkersOpen()
    ensures var text := "/*/";
      var t := Token(0, 3, MultiLineComment);
      OccursAt(text, "*/", t.End() - 2) && CommentLeftOpen(text, t)
  {
    var text := "/*/";
    assert text[1..3] == "*/";
  }

  /**
   * Where the parenthesis record of a bracket token is placed: at the token's position
   * in the block, which is its position in the text after the comment prefix plus the
   * length of that prefix, as for the token's format.
   */
  function BracketPos(startBlockPos: int, t: Token): int {
    startBlockPos + t.start
  }

  /** The position the source records for a bracket token: its offset in the text after the comment prefix. */
  function BracketPosAsWritten(startBlockPos: int, t: Token): int {
    t.start
  }

  /** A bracket's record points at the bracket's character in the block. */
  lemma BracketPosInBlock(text: string, startBlockPos: nat, t: Token)
    requires startBlockPos <= |text| && 0 <= t.start < |text| - startBlockPos
    ensures 0 <= BracketPos(startBlockPos, t) < |text|
    ensures text[BracketPos(startBlockPos, t)] == text[startBlockPos..][t.start]
  {
  }

  /**
   * On a line that starts inside a comment, consists of the closing marker, a space and `{`, the brace is the second character
   * of the text after the prefix; the source records position 1, where the block has `/`.
   */
  lemma BracketPosAsWrittenMisplaced()
    ensures var text := "*/ {";
      var t := Token(1, 1, LeftBrace);
      text[2..][t.start] == '{' && text[BracketPosAsWritten(2, t)] != '{'
      && text[BracketPos(2, t)] == '{'
  {
  }

  /** What a token does to the parenthesis bookkeeping: nothing, an opening or a closing. */
  datatype Bracket = NoBracket | Open(ch: char, pos: int, atStart: bool) | Close(ch: char, pos: int, atEnd: bool)

  /**
   * The bracket of a valid token: an open comment opens `+`, each bracket token opens or
   * closes its own character.  `tokenIndex` counts the valid tokens before it and `count`
   * is the number of tokens of the line.
   */
  function TokenBracket(blockText: string, startBlockPos: int, t: Token, tokenIndex: int, count: int): Bracket {
    var pos := BracketPos(startBlockPos, t);
    var atStart := tokenIndex == 0;
    var atEnd := tokenIndex == count - 1;
    if t.kind == MultiLineComment then
      if CommentLeftOpen(blockText, t) then Open('+', startBlockPos + t.start, atStart) else NoBracket
    else if t.kind == LeftParen then Open('(', pos, atStart)
    else if t.kind == RightParen then Close(')', pos, atEnd)
    else if t.kind == LeftBrace then Open('{', pos, atStart)
    else if t.kind == RightBrace then Close('}', pos, atEnd)
    else if t.kind == LeftBracket then Open('[', pos, atStart)
    else if t.kind == RightBracket then Close(']', pos, atEnd)
    else NoBracket
  }

  /** Only an open comment token opens the comment marker `+`. */
  lemma TokenBracketComment(blockText: string, startBlockPos: int, t: Token, tokenIndex: int, count: int)
    ensures var b := TokenBracket(blockText, startBlockPos, t, tokenIndex, count);
      (b.Open? && b.ch == '+') <==> (t.kind == MultiLineComment && CommentLeftOpen(blockText, t))
  {
  }

  /** The handler a bracket calls. */
  function ApplyBracket(s: HState, b: Bracket): HState {
    match b
    case NoBracket => s
    case Open(ch, pos, atStart) => Opening(s, ch, pos, atStart)
    case Close(ch, pos, atEnd) => Closing(s, ch, pos, atEnd)
  }

  /** One valid token of the loop of `highlightBlock`: its format, then its bracket; an open comment sets the comment flag. */
  function TokenStep(s: HState, blockText: string, startBlockPos: int, t: Token, tokenIndex: int, count: int): HState {
    var f := s.(formats := s.formats + [Format(startBlockPos + t.start, t.length, StyleOf(t.kind))]);
    var b := TokenBracket(blockText, startBlockPos, t, tokenIndex, count);
    var r := ApplyBracket(f, b);
    if t.kind == MultiLineComment && b.Open? then r.(inComment := true) else r
  }

  /** `b` extends `a`. */
  predicate Extends<T(==)>(a: seq<T>, b: seq<T>) {
    |a| <= |b| && b[..|a|] == a
  }

  lemma ExtendsTransitive<T>(a: seq<T>, b: seq<T>, c: seq<T>)
    requires Extends(a, b) && Extends(b, c)
    ensures Extends(a, c)
  {
    assert c[..|a|] == c[..|b|][..|a|];
  }

  /**
   * A token appends its one format and at most one parenthesis record, keeps the brace
   * depth in step with the records and never raises the folding indent.
   */
  lemma TokenStepFacts(s: HState, blockText: string, startBlockPos: int, t: Token, tokenIndex: int, count: int, d0: int)
    ensures var r := TokenStep(s, blockText, startBlockPos, t, tokenIndex, count);
      r.formats == s.formats + [Format(startBlockPos + t.start, t.length, StyleOf(t.kind))]
      && Extends(s.parens, r.parens) && |r.parens| <= |s.parens| + 1
      && r.foldingIndent <= s.foldingIndent
      && (DepthFollowsParens(s, d0) ==> DepthFollowsParens(r, d0))
  {
    var f := s.(formats := s.formats + [Format(startBlockPos + t.start, t.length, StyleOf(t.kind))]);
    var b := TokenBracket(blockText, startBlockPos, t, tokenIndex, count);
    BracketFacts(f, b, d0);
  }

  /** A bracket appends at most one record, keeps the formats and the depth in step with the records, and never raises the folding indent. */
  lemma BracketFacts(f: HState, b: Bracket, d0: int)
    ensures var r := ApplyBracket(f, b);
      r.formats == f.formats && Extends(f.parens, r.parens) && |r.parens| <= |f.parens| + 1
      && r.foldingIndent <= f.foldingIndent
      && (DepthFollowsParens(f, d0) ==> DepthFollowsParens(r, d0))
  {
    var r := ApplyBracket(f, b);
    if !b.NoBracket? {
      assert r.parens[..|r.parens| - 1] == f.parens;
    }
  }

  /** The token loop of `highlightBlock` from token `i` on; invalid tokens are skipped without counting. */
  function RunTokens(s: HState, blockText: string, startBlockPos: int, tokens: seq<Token>, i: nat, tokenIndex: int): HState
    decreases |tokens| - i
  {
    if i >= |tokens| then s
    else if !IsValidToken(tokens[i]) then RunTokens(s, blockText, startBlockPos, tokens, i + 1, tokenIndex)
    else RunTokens(TokenStep(s, blockText, startBlockPos, tokens[i], tokenIndex, |tokens|),
                   blockText, startBlockPos, tokens, i + 1, tokenIndex + 1)
  }

  /** The net nesting of a list of parenthesis records: folding openers minus folding closers. */
  function Net(ps: seq<Parenthesis>): int {
    if ps == [] then 0
    else
      var p := ps[|ps| - 1];
      Net(ps[..|ps| - 1])
      + (if p.kind == Opened && IsFoldOpener(p.ch) then 1 else 0)
      - (if p.kind == Closed && IsFoldCloser(p.ch) then 1 else 0)
  }

  /** The brace depth is the depth the line started at plus the net nesting of its records. */
  predicate DepthFollowsParens(s: HState, startDepth: int) {
    s.braceDepth == startDepth + Net(s.parens)
  }

  /**
   * Over the whole token loop the brace depth follows the parenthesis records and the
   * folding indent never rises: it is the least depth reached, as folding needs.
   */
  lemma {:induction false} RunTokensKeepsDepth(s: HState, blockText: string, startBlockPos: int, tokens: seq<Token>,
                                               i: nat, tokenIndex: int, d0: int)
    requires DepthFollowsParens(s, d0)
    ensures DepthFollowsParens(RunTokens(s, blockText, startBlockPos, tokens, i, tokenIndex), d0)
    ensures RunTokens(s, blockText, startBlockPos, tokens, i, tokenIndex).foldingIndent <= s.foldingIndent
    decreases |tokens| - i
  {
    if i < |tokens| {
      if IsValidToken(tokens[i]) {
        TokenStepFacts(s, blockText, startBlockPos, tokens[i], tokenIndex, |tokens|, d0);
        RunTokensKeepsDepth(TokenStep(s, blockText, startBlockPos, tokens[i], tokenIndex, |tokens|),
                            blockText, startBlockPos, tokens, i + 1, tokenIndex + 1, d0);
      } else {
        RunTokensKeepsDepth(s, blockText, startBlockPos, tokens, i + 1, tokenIndex, d0);
      }
    }
  }

  /**
   * The loop only appends: formats and parenthesis records of the state before it stay
   * in place, and each token adds at most one record.
   */
  lemma {:induction false} RunTokensExtends(s: HState, blockText: string, startBlockPos: int, tokens: seq<Token>,
                                            i: nat, tokenIndex: int)
    ensures var r := RunTokens(s, blockText, startBlockPos, tokens, i, tokenIndex);
      Extends(s.formats, r.formats) && Extends(s.parens, r.parens)
      && |r.parens| <= |s.parens| + (if i <= |tokens| then |tokens| - i else 0)
    decreases |tokens| - i
  {
    if i < |tokens| {
      var s' := s;
      var ti := tokenIndex;
      if IsValidToken(tokens[i]) {
        TokenStepFacts(s, blockText, startBlockPos, tokens[i], tokenIndex, |tokens|, 0);
        s' := TokenStep(s, blockText, startBlockPos, tokens[i], tokenIndex, |tokens|);
        ti := tokenIndex + 1;
      }
      assert Extends(s.formats, s'.formats);
      RunTokensExtends(s', blockText, startBlockPos, tokens, i + 1, ti);
      var r := RunTokens(s', blockText, startBlockPos, tokens, i + 1, ti);
      ExtendsTransitive(s.formats, s'.formats, r.formats);
      ExtendsTransitive(s.parens, s'.parens, r.parens);
    }
  }

  /**
   * A line whose comment tokens are all closed does not open a comment: the comment
   * flag after the loop is the flag before it.
   */
  lemma {:induction false} ClosedCommentsKeepFlag(s: HState, blockText: string, startBlockPos: int, tokens: seq<Token>,
                                                  i: nat, tokenIndex: int)
    requires forall j :: i <= j < |tokens| && tokens[j].kind == MultiLineComment ==> !CommentLeftOpen(blockText, tokens[j])
    ensures RunTokens(s, blockText, startBlockPos, tokens, i, tokenIndex).inComment == s.inComment
    decreases |tokens| - i
  {
    if i < |tokens| {
      if IsValidToken(tokens[i]) {
        ClosedCommentsKeepFlag(TokenStep(s, blockText, startBlockPos, tokens[i], tokenIndex, |tokens|),
                               blockText, startBlockPos, tokens, i + 1, tokenIndex + 1);
      } else {
        ClosedCommentsKeepFlag(s, blockText, startBlockPos, tokens, i + 1, tokenIndex);
      }
    }
  }

  /** The result of highlighting a line: the state, and whether `onBlockEnd` stored it (false when the tokenizer fails). */
  datatype LineResult = LineResult(state: HState, ended: bool)

  /**
   * `highlightBlock(text)` on values.  A line that starts inside a comment is split at
   * the first closing marker: the prefix is a comment, closes the comment's folding level, and the
   * rest is tokenized with its positions shifted by the prefix length; with no marker the
   * whole line is comment and the state is stored at once.
   */
  function HighlightLine(text: string, previousState: int, tokenize: string -> Option<seq<Token>>): (r: LineResult)
  {
    var s0 := BlockStart(previousState);
    if s0.inComment && IndexOf(text, "*/") < 0 then
      LineResult(WholeLineComment(s0, text), true)
    else
      var startBlockPos := PrefixEnd(s0, text);
      var blockText := text[startBlockPos..];
      var s1 := if s0.inComment then AfterPrefix(s0, text) else s0;
      match tokenize(blockText)
      case None => LineResult(s1, false)
      case Some(tokens) => LineResult(RunTokens(s1, blockText, startBlockPos, tokens, 0, 0), true)
  }

  /** A line with no closing marker inside a comment: one comment format over the whole text. */
  function WholeLineComment(s: HState, text: string): HState {
    s.(formats := s.formats + [Format(0, |text|, CComment)])
  }

  /** Where the tokenized text starts: after the first closing marker inside a comment, else at 0. */
  function PrefixEnd(s: HState, text: string): (n: int)
    requires !s.inComment || IndexOf(text, "*/") >= 0
    ensures 0 <= n <= |text|
  {
    if s.inComment then IndexOf(text, "*/") + 2 else 0
  }

  /**
   * The comment prefix of a line inside a comment: a comment format up to and including
   * the marker, a closing `-` at its `/`, and the comment flag cleared.
   */
  function AfterPrefix(s: HState, text: string): HState
    requires s.inComment && IndexOf(text, "*/") >= 0
  {
    var n := PrefixEnd(s, text);
    Closing(s.(formats := s.formats + [Format(0, n, CComment)]), '-', n - 1, n == |text|).(inComment := false)
  }

  /** A line inside an unclosed comment is one comment format, records nothing and keeps the comment open. */
  lemma OpenCommentLine(text: string, previousState: int, tokenize: string -> Option<seq<Token>>)
    requires BlockStart(previousState).inComment && IndexOf(text, "*/") < 0
    ensures var r := HighlightLine(text, previousState, tokenize);
      r.ended && r.state.inComment && r.state.parens == [] && r.state.formats == [Format(0, |text|, CComment)]
      && r.state.braceDepth == BlockStart(previousState).braceDepth
  {
  }

  /**
   * A line that starts inside a comment closed at `i`: the first format covers `[0, i+2)`,
   * the first record closes the comment's level at the `/` of the marker.
   */
  lemma CommentPrefixLine(text: string, previousState: int, tokenize: string -> Option<seq<Token>>)
    requires BlockStart(previousState).inComment && IndexOf(text, "*/") >= 0
    ensures var i := IndexOf(text, "*/");
      var r := HighlightLine(text, previousState, tokenize);
      |r.state.formats| > 0 && r.state.formats[0] == Format(0, i + 2, CComment)
      && |r.state.parens| > 0 && r.state.parens[0] == Parenthesis(Closed, '-', i + 1)
  {
    var i := IndexOf(text, "*/");
    var s0 := BlockStart(previousState);
    var blockText := text[i + 2..];
    var s1 := AfterPrefix(s0, text);
    assert s1.parens == [Parenthesis(Closed, '-', i + 1)];
    match tokenize(blockText)
    case None =>
    case Some(tokens) =>
      RunTokensExtends(s1, blockText, i + 2, tokens, 0, 0);
  }

  /**
   * Across a highlighted line the brace depth moves exactly with the parenthesis
   * records, and the folding indent is at most the depth the line started at.
   */
  lemma HighlightLineDepth(text: string, previousState: int, tokenize: string -> Option<seq<Token>>)
    ensures var r := HighlightLine(text, previousState, tokenize);
      var d0 := BlockStart(previousState).braceDepth;
      r.state.braceDepth == d0 + Net(r.state.parens) && r.state.foldingIndent <= d0
  {
    var s0 := BlockStart(previousState);
    assert DepthFollowsParens(s0, s0.braceDepth);
    if !(s0.inComment && IndexOf(text, "*/") < 0) {
      var startBlockPos := PrefixEnd(s0, text);
      var blockText := text[startBlockPos..];
      var s1 := if s0.inComment then AfterPrefix(s0, text) else s0;
      if s0.inComment {
        assert s1.parens[..|s1.parens| - 1] == s0.parens;
      }
      assert DepthFollowsParens(s1, s0.braceDepth);
      match tokenize(blockText)
      case None =>
      case Some(tokens) =>
        RunTokensKeepsDepth(s1, blockText, startBlockPos, tokens, 0, 0, s0.braceDepth);
    }
  }

  // ---------------------------------------------------------------- the highlighter

  /**
   * A DslHighlighter: the fields of its private part, the tokenizer, and what it stores on
   * the block being highlighted (its formats, state, parentheses, folding indent and the
   * folding flags of its user data).
   */
  class DslHighlighter {
    var braceDepth: int
    var foldingIndent: int
    var inMultilineComment: bool
    var currentBlockParentheses: seq<Parenthesis>
    var formats: seq<Format>
    var foldingStartIncluded: bool
    var foldingEndIncluded: bool
    var blockState: int
    var blockParentheses: seq<Parenthesis>
    var blockFoldingIndent: int
    const tokenize: string -> Option<seq<Token>>

    /** The line state held in the fields. */
    ghost function Current(): HState
      reads this`braceDepth, this`foldingIndent, this`inMultilineComment, this`currentBlockParentheses,
        this`formats, this`foldingStartIncluded, this`foldingEndIncluded
    {
      HState(braceDepth, foldingIndent, inMultilineComment, currentBlockParentheses, formats,
             foldingStartIncluded, foldingEndIncluded)
    }

    constructor (tokenize: string -> Option<seq<Token>>)
      ensures braceDepth == 0 && foldingIndent == 0 && !inMultilineComment
      ensures currentBlockParentheses == [] && blockState == NoState && this.tokenize == tokenize
    {
      this.tokenize := tokenize;
      braceDepth, foldingIndent, inMultilineComment := 0, 0, false;
      currentBlockParentheses, formats := [], [];
      foldingStartIncluded, foldingEndIncluded := false, false;
      blockState, blockParentheses, blockFoldingIndent := NoState, [], 0;
    }

    /** `onBlockStart`: reset the line state and decode the previous block's state; returns the comment byte. */
    method OnBlockStart(previousState: int) returns (state: int)
      modifies this`braceDepth, this`foldingIndent, this`inMultilineComment, this`currentBlockParentheses,
        this`foldingStartIncluded, this`foldingEndIncluded
      ensures Current() == BlockStart(previousState).(formats := old(formats))
      ensures state == if previousState != NoState then DecodeStateByte(previousState) else 0
    {
      currentBlockParentheses := [];
      braceDepth := 0;
      foldingIndent := 0;
      inMultilineComment := false;
      foldingStartIncluded := false;
      foldingEndIncluded := false;
      state := 0;
      if previousState != NoState {
        state := DecodeStateByte(previousState);
        if state != 0 {
          inMultilineComment := true;
        }
        braceDepth := DecodeBraceDepth(previousState);
      }
      foldingIndent := braceDepth;
    }

    /** `onBlockEnd(state)`: store the packed state, the parentheses and the folding indent on the block. */
    method OnBlockEnd(state: bool)
      modifies this`blockState, this`blockParentheses, this`blockFoldingIndent
      ensures blockState == EncodeBlockState(braceDepth, state)
      ensures blockParentheses == currentBlockParentheses && blockFoldingIndent == foldingIndent
    {
      blockState := EncodeBlockState(braceDepth, state);
      blockParentheses := currentBlockParentheses;
      blockFoldingIndent := foldingIndent;
    }

    /** `onOpeningParenthesis`. */
    method OnOpeningParenthesis(parenthesis: char, pos: int, atStart: bool)
      modifies this`braceDepth, this`foldingStartIncluded, this`currentBlockParentheses
      ensures Current() == Opening(old(Current()), parenthesis, pos, atStart)
    {
      if IsFoldOpener(parenthesis) {
        braceDepth := braceDepth + 1;
        if atStart {
          foldingStartIncluded := true;
        }
      }
      currentBlockParentheses := currentBlockParentheses + [Parenthesis(Opened, parenthesis, pos)];
    }

    /** `onClosingParenthesis`. */
    method OnClosingParenthesis(parenthesis: char, pos: int, atEnd: bool)
      modifies this`braceDepth, this`foldingIndent, this`foldingEndIncluded, this`currentBlockParentheses
      ensures Current() == Closing(old(Current()), parenthesis, pos, atEnd)
    {
      if IsFoldCloser(parenthesis) {
        braceDepth := braceDepth - 1;
        if atEnd {
          foldingEndIncluded := true;
        } else {
          foldingIndent := if braceDepth < foldingIndent then braceDepth else foldingIndent;
        }
      }
      currentBlockParentheses := currentBlockParentheses + [Parenthesis(Closed, parenthesis, pos)];
    }

    /** `setFormat`. */
    method SetFormat(start: int, length: int, style: TextStyle)
      modifies this`formats
      ensures formats == old(formats) + [Format(start, length, style)]
    {
      formats := formats + [Format(start, length, style)];
    }

    /** The body of the token loop of `highlightBlock` for one valid token. */
    method HighlightToken(blockText: string, startBlockPos: int, t: Token, tokenIndex: int, count: int)
      modifies this`braceDepth, this`foldingIndent, this`inMultilineComment, this`currentBlockParentheses,
        this`formats, this`foldingStartIncluded, this`foldingEndIncluded
      ensures Current() == TokenStep(old(Current()), blockText, startBlockPos, t, tokenIndex, count)
    {
      SetFormat(startBlockPos + t.start, t.length, StyleOf(t.kind));
      var b := TokenBracket(blockText, startBlockPos, t, tokenIndex, count);
      match b {
        case NoBracket =>
        case Open(ch, pos, atStart) =>
          OnOpeningParenthesis(ch, pos, atStart);
          if t.kind == MultiLineComment {
            inMultilineComment := true;
          }
        case Close(ch, pos, atEnd) =>
          OnClosingParenthesis(ch, pos, atEnd);
      }
    }

    /** The token loop of `highlightBlock`. */
    method HighlightTokens(blockText: string, startBlockPos: int, tokens: seq<Token>)
      modifies this`braceDepth, this`foldingIndent, this`inMultilineComment, this`currentBlockParentheses,
        this`formats, this`foldingStartIncluded, this`foldingEndIncluded
      ensures Current() == RunTokens(old(Current()), blockText, startBlockPos, tokens, 0, 0)
    {
      ghost var target := RunTokens(Current(), blockText, startBlockPos, tokens, 0, 0);
      var tokenIndex := 0;
      var i := 0;
      while i < |tokens|
        invariant 0 <= i <= |tokens|
        invariant RunTokens(Current(), blockText, startBlockPos, tokens, i, tokenIndex) == target
      {
        var t := tokens[i];
        if IsValidToken(t) {
          HighlightToken(blockText, startBlockPos, t, tokenIndex, |tokens|);
          tokenIndex := tokenIndex + 1;
        }
        i := i + 1;
      }
    }

    /**
     * `highlightBlock(text)` for a block whose predecessor has state `previousState`;
     * the formats of the block start empty, as the host clears them before each call.
     */
    method HighlightBlock(text: string, previousState: int)
      modifies this
      ensures var r := HighlightLine(text, previousState, tokenize);
        Current() == r.state
        && (r.ended ==> blockState == EncodeBlockState(r.state.braceDepth, r.state.inComment)
                        && blockParentheses == r.state.parens && blockFoldingIndent == r.state.foldingIndent)
        && (!r.ended ==> blockState == old(blockState) && blockParentheses == old(blockParentheses)
                         && blockFoldingIndent == old(blockFoldingIndent))
    {
      formats := [];
      var _ := OnBlockStart(previousState);
      var startBlockPos := 0;
      var blockText := text;
      if inMultilineComment {
        var indexCommentOff := IndexOf(blockText, "*/");
        if indexCommentOff < 0 {
          SetFormat(0, |blockText|, CComment);
          OnBlockEnd(inMultilineComment);
          return;
        }
        startBlockPos := CloseCommentPrefix(text);
        blockText := blockText[startBlockPos..];
      }
      var result := tokenize(blockText);
      if result.None? {
        return;
      }
      HighlightTokens(blockText, startBlockPos, result.value);
      OnBlockEnd(inMultilineComment);
    }

    /** The comment prefix of a line that starts inside a comment closed on it; returns where the rest starts. */
    method CloseCommentPrefix(text: string) returns (startBlockPos: int)
      requires inMultilineComment && IndexOf(text, "*/") >= 0
      modifies this`braceDepth, this`foldingIndent, this`inMultilineComment, this`currentBlockParentheses,
        this`formats, this`foldingEndIncluded
      ensures startBlockPos == PrefixEnd(old(Current()), text)
      ensures Current() == AfterPrefix(old(Current()), text)
    {
      var indexCommentOff := IndexOf(text, "*/");
      SetFormat(0, indexCommentOff + 2, CComment);
      startBlockPos := indexCommentOff + 2;
      OnClosingParenthesis('-', startBlockPos - 1, |text| - startBlockPos == 0);
      inMultilineComment := false;
    }
  }
}
