/**
 * The auto-completion rules of the DSL editor (dslautocompleter.cpp): which token lies
 * under the cursor, whether a typed character may be completed with its partner, what
 * text is inserted or skipped for a typed bracket or quote, and what closes a block when
 * Enter is pressed after `{`.
 */
module AutoCompleter {
  import opened Wrappers
  import opened TextUtil
  import opened FormatterTypes
  import opened Highlighter

  /**
   * A text cursor: the document's characters (blocks separated by the paragraph
   * separator), the cursor position and the end of its selection in the document, the
   * text of the cursor's block, the position in that block, and the state the previous
   * block was left in by the highlighter.
   */
  datatype Cursor = Cursor(doc: string, position: int, selectionEnd: int,
                           blockText: string, positionInBlock: int, previousState: int)

  /** QTextDocument::characterAt: the null character outside the document. */
  function CharacterAt(doc: string, pos: int): (c: char)
    ensures !(0 <= pos < |doc|) ==> c == '\0'
  {
    if 0 <= pos < |doc| then doc[pos] else '\0'
  }

  // ---------------------------------------------------------------- the token under the cursor

  /** `blockStartState`: the low byte of the previous block's state, 0 when it has none. */
  function BlockStartState(previousState: int): (r: int)
    ensures 0 <= r < 256
    ensures previousState == NoState ==> r == 0
  {
    if previousState == NoState then 0 else DecodeStateByte(previousState)
  }

  /** On a state the highlighter stored, the start state is 1 exactly when the previous line ended inside a comment. */
  lemma BlockStartStateIsCommentFlag(braceDepth: int, inComment: bool)
    requires -0x80_0000 <= braceDepth < 0x80_0000
    ensures BlockStartState(EncodeBlockState(braceDepth, inComment)) == if inComment then 1 else 0
  {
    BlockStateRoundTrip(braceDepth, inComment);
    assert Int32(braceDepth * 256) == braceDepth * 256;
  }

  /** Comments and strings extend to the character before the cursor; other tokens to the one after it. */
  predicate IsTextToken(kind: TokenKind) {
    kind == LineComment || kind == MultiLineComment || kind == StringLiteral
  }

  /** Whether a token lies under a cursor at `pos`. */
  predicate Covers(t: Token, pos: int) {
    if IsTextToken(t.kind) then t.start < pos <= t.End() else t.start <= pos < t.End()
  }

  /** The index of the first token under `pos`, or -1. */
  function FindToken(tokens: seq<Token>, pos: int): (r: int)
    ensures -1 <= r < |tokens|
    ensures r >= 0 ==> Covers(tokens[r], pos)
    ensures forall j :: 0 <= j < |tokens| && (r == -1 || j < r) ==> !Covers(tokens[j], pos)
  {
    if tokens == [] then -1
    else if Covers(tokens[0], pos) then 0
    else
      var k := FindToken(tokens[1..], pos);
      if k == -1 then -1 else k + 1
  }

  /** Where the comment the block starts in ends: the first closing marker, or the end of the text. */
  function CommentEnd(blockText: string): (n: int)
    ensures 0 <= n <= |blockText|
    ensures n < |blockText| ==> OccursAt(blockText, "*/", n)
  {
    var i := IndexOf(blockText, "*/");
    if i == -1 then |blockText| else i
  }

  /** Whether the cursor lies in the part of its block that continues a comment from the previous block. */
  predicate InCommentPrefix(c: Cursor) {
    BlockStartState(c.previousState) == 1 && c.positionInBlock <= CommentEnd(c.blockText)
  }

  /** Where the tokenized text starts in the block: after the comment's closing marker, or at 0. */
  function TokenizedFrom(c: Cursor): (n: int)
    ensures 0 <= n <= |c.blockText|
  {
    if BlockStartState(c.previousState) == 1 && CommentEnd(c.blockText) < |c.blockText|
    then CommentEnd(c.blockText) + 2 else 0
  }

  /** A token moved by `offset` positions. */
  function Shift(t: Token, offset: int): (r: Token)
    ensures r.End() == t.End() + offset && r.kind == t.kind && r.length == t.length
  {
    t.(start := t.start + offset)
  }

  /**
   * `tokenUnderCursor`: in the comment prefix, the comment up to its closing marker;
   * otherwise the first token of the rest of the block under the cursor, in block
   * positions, or an invalid token.
   */
  function TokenUnderCursorRule(c: Cursor, tokenize: string -> Option<seq<Token>>): Token {
    if InCommentPrefix(c) then Token(0, CommentEnd(c.blockText), MultiLineComment)
    else
      var off := TokenizedFrom(c);
      match tokenize(c.blockText[off..])
      case None => EmptyToken
      case Some(tokens) =>
        var k := FindToken(tokens, c.positionInBlock - off);
        if k == -1 then EmptyToken else Shift(tokens[k], off)
  }

  /**
   * The function as the source writes it: the tokens of the rest of the block are
   * matched against the cursor's position in the whole block and returned unshifted.
   */
  function TokenUnderCursorAsWritten(c: Cursor, tokenize: string -> Option<seq<Token>>): Token {
    if InCommentPrefix(c) then Token(0, CommentEnd(c.blockText), MultiLineComment)
    else
      var off := TokenizedFrom(c);
      match tokenize(c.blockText[off..])
      case None => EmptyToken
      case Some(tokens) =>
        var k := FindToken(tokens, c.positionInBlock);
        if k == -1 then EmptyToken else tokens[k]
  }

  /**
   * In a block that continues a comment and reads: closing marker, space, `x`, with the cursor between `*` and `/`, the
   * source reports the identifier `x` as the token under the cursor; that identifier is at
   * block position 3.  In block positions there is no token at the marker.
   */
  lemma TokenUnderCursorAsWrittenMisplaced(tokenize: string -> Option<seq<Token>>)
    requires tokenize(" x") == Some([Token(0, 1, WhiteSpace), Token(1, 1, Identifier)])
    ensures var c := Cursor("*/ x", 1, 1, "*/ x", 1, 1);
      TokenUnderCursorAsWritten(c, tokenize) == Token(1, 1, Identifier)
      && c.blockText[1] == '/' && c.blockText[3] == 'x'
      && TokenUnderCursorRule(c, tokenize) == EmptyToken
  {
    var c := Cursor("*/ x", 1, 1, "*/ x", 1, 1);
    assert OccursAt(c.blockText, "*/", 0);
    assert CommentEnd(c.blockText) == 0;
    assert c.blockText[2..] == " x";
    var tokens := [Token(0, 1, WhiteSpace), Token(1, 1, Identifier)];
    assert !Covers(tokens[0], 1) && Covers(tokens[1], 1);
    assert FindToken(tokens, 1) == 1;
    assert !Covers(tokens[0], -1) && !Covers(tokens[1], -1);
    assert FindToken(tokens, -1) == -1;
  }

  /** The token under the cursor lies under the cursor, in block positions, unless it is the invalid token. */
  lemma TokenUnderCursorCovers(c: Cursor, tokenize: string -> Option<seq<Token>>)
    requires !InCommentPrefix(c)
    ensures var t := TokenUnderCursorRule(c, tokenize);
      t == EmptyToken || Covers(t, c.positionInBlock)
  {
  }

  /** In the comment prefix of a block the token under the cursor is the comment up to its marker. */
  lemma TokenUnderCursorInComment(c: Cursor, tokenize: string -> Option<seq<Token>>)
    requires BlockStartState(c.previousState) == 1 && 0 <= c.positionInBlock <= |c.blockText|
    requires IndexOf(c.blockText, "*/") == -1 || c.positionInBlock <= IndexOf(c.blockText, "*/")
    ensures TokenUnderCursorRule(c, tokenize).kind == MultiLineComment
    ensures TokenUnderCursorRule(c, tokenize).start == 0
    ensures IndexOf(c.blockText, "*/") == -1 ==> TokenUnderCursorRule(c, tokenize).End() == |c.blockText|
  {
  }

  /** `tokenUnderCursor`, with its search loop over the tokens of the rest of the block. */
  method TokenUnderCursor(c: Cursor, tokenize: string -> Option<seq<Token>>) returns (t: Token)
    ensures t == TokenUnderCursorRule(c, tokenize)
  {
    var blockText := c.blockText;
    var blockState := BlockStartState(c.previousState);
    var pos := c.positionInBlock;
    var offset := 0;
    if blockState == 1 {
      var endOfCommentPos := IndexOf(blockText, "*/");
      if endOfCommentPos == -1 {
        endOfCommentPos := |blockText|;
      }
      if pos <= endOfCommentPos {
        return Token(0, endOfCommentPos, MultiLineComment);
      }
      if endOfCommentPos < |blockText| {
        offset := endOfCommentPos + 2;
        blockText := blockText[offset..];
      }
    }
    var result := tokenize(blockText);
    if result.None? {
      return EmptyToken;
    }
    var tokens := result.value;
    for i := 0 to |tokens|
      invariant forall j :: 0 <= j < i ==> !Covers(tokens[j], pos - offset)
    {
      if Covers(tokens[i], pos - offset) {
        return Shift(tokens[i], offset);
      }
    }
    return EmptyToken;
  }

  // ---------------------------------------------------------------- look-ahead rules

  /** `shouldInsertMatchingText(lookAhead)`: a closer, a separator, a quote or white space follows. */
  predicate ShouldInsertMatchingText(lookAhead: char) {
    lookAhead == '{' || lookAhead == '}' || lookAhead == ']' || lookAhead == ')'
    || lookAhead == ';' || lookAhead == ',' || lookAhead == '"' || lookAhead == '\''
    || IsSpace(lookAhead)
  }

  /** The end of the white-space run of `doc` from `pos`. */
  function WhitespaceEnd(doc: string, pos: int): (e: int)
    requires 0 <= pos <= |doc|
    ensures pos <= e <= |doc|
    ensures forall j :: pos <= j < e ==> IsSpace(doc[j])
    ensures e < |doc| ==> !IsSpace(doc[e])
    decreases |doc| - pos
  {
    if pos == |doc| || !IsSpace(doc[pos]) then pos else WhitespaceEnd(doc, pos + 1)
  }

  /** The white-space run is determined by its properties. */
  lemma WhitespaceEndUnique(doc: string, pos: int, e: int)
    requires 0 <= pos <= e <= |doc|
    requires forall j :: pos <= j < e ==> IsSpace(doc[j])
    requires e < |doc| ==> !IsSpace(doc[e])
    ensures WhitespaceEnd(doc, pos) == e
  {
  }

  /** The number of paragraph separators in `s`. */
  function CountSeparators(s: string): (n: nat)
    ensures n <= |s|
  {
    if s == [] then 0
    else CountSeparators(s[..|s| - 1]) + (if s[|s| - 1] == ParagraphSeparator then 1 else 0)
  }

  /**
   * `shouldInsertNewline`: the white space after the selection holds at most one
   * paragraph separator and is not followed by `}`.
   */
  predicate ShouldInsertNewlineRule(c: Cursor)
    requires 0 <= c.selectionEnd <= |c.doc|
  {
    var e := WhitespaceEnd(c.doc, c.selectionEnd);
    CountSeparators(c.doc[c.selectionEnd..e]) <= 1 && CharacterAt(c.doc, e) != '}'
  }

  /** `shouldInsertNewline`, with its counting loop over the white space after the selection. */
  method ShouldInsertNewline(c: Cursor) returns (r: bool)
    requires 0 <= c.selectionEnd <= |c.doc|
    ensures r == ShouldInsertNewlineRule(c)
  {
    var pos := c.selectionEnd;
    var newlines := 0;
    var e := |c.doc|;
    while pos != e
      invariant c.selectionEnd <= pos <= e
      invariant forall j :: c.selectionEnd <= j < pos ==> IsSpace(c.doc[j])
      invariant newlines == CountSeparators(c.doc[c.selectionEnd..pos])
      decreases e - pos
    {
      var ch := CharacterAt(c.doc, pos);
      if !IsSpace(ch) {
        break;
      } else if ch == ParagraphSeparator {
        newlines := newlines + 1;
      }
      assert c.doc[c.selectionEnd..pos + 1][..pos - c.selectionEnd] == c.doc[c.selectionEnd..pos];
      pos := pos + 1;
    }
    WhitespaceEndUnique(c.doc, c.selectionEnd, pos);
    r := newlines <= 1 && CharacterAt(c.doc, pos) != '}';
  }

  /** `isCompleteStringLiteral`: at least two characters, the last is the opening quote, and it is not escaped. */
  predicate IsCompleteStringLiteral(text: string) {
    |text| >= 2 && text[|text| - 1] == text[0] && text[|text| - 2] != '\\'
  }

  // ---------------------------------------------------------------- context rules

  /** QString::midRef(start, length) for a length that is not negative: the part inside the text. */
  function Mid(s: string, start: int, length: int): (r: string)
    ensures |r| <= |s|
    ensures 0 <= start && 0 <= length && start + length <= |s| ==> r == s[start..start + length]
  {
    var lo := if start < 0 then 0 else if start > |s| then |s| else start;
    var hi := if start + length < lo then lo else if start + length > |s| then |s| else start + length;
    s[lo..hi]
  }

  /** The first character of the text to insert, or the null character when there is none. */
  function FirstChar(text: string): char {
    if text == [] then '\0' else text[0]
  }

  /** The characters auto-parenthesis handling applies to: quotes, brackets, `;`, and the null character. */
  predicate IsAutoParenthesisChar(ch: char) {
    ch == '\'' || ch == '"' || ch == '(' || ch == '[' || ch == '{' || ch == ')' || ch == ']' || ch == '}'
    || ch == ';' || ch == '\0'
  }

  /**
   * The decision of `contextAllowsAutoParentheses` once the token under the cursor is
   * known.  A string token that does not start with a quote continues from the previous
   * block and is taken as double-quoted when the block starts in a non-zero state; an
   * empty token text, which Qt asserts against, reads as the null character.
   */
  predicate AutoParenthesesAllowed(ch: char, token: Token, blockText: string, previousState: int) {
    if !IsAutoParenthesisChar(ch) then false
    else if token.kind == MultiLineComment then false
    else if token.kind == StringLiteral then
      var tokenText := Mid(blockText, token.start, token.length);
      var first := if tokenText == [] then '\0' else tokenText[0];
      var quote := if first != '"' && first != '\'' && BlockStartState(previousState) != 0 then '"' else first;
      if ch == '\'' then false
      else ch != quote || IsCompleteStringLiteral(tokenText)
    else true
  }

  /** `contextAllowsAutoParentheses(cursor, textToInsert)`. */
  predicate ContextAllowsAutoParenthesesRule(c: Cursor, textToInsert: string, tokenize: string -> Option<seq<Token>>) {
    AutoParenthesesAllowed(FirstChar(textToInsert), TokenUnderCursorRule(c, tokenize), c.blockText, c.previousState)
  }

  method ContextAllowsAutoParentheses(c: Cursor, textToInsert: string, tokenize: string -> Option<seq<Token>>)
    returns (r: bool)
    ensures r == ContextAllowsAutoParenthesesRule(c, textToInsert, tokenize)
  {
    var ch := FirstChar(textToInsert);
    if !IsAutoParenthesisChar(ch) {
      return false;
    }
    var token := TokenUnderCursor(c, tokenize);
    if token.kind == MultiLineComment {
      return false;
    }
    if token.kind == StringLiteral {
      var tokenText := Mid(c.blockText, token.start, token.length);
      var quote := if tokenText == [] then '\0' else tokenText[0];
      if quote != '"' && quote != '\'' {
        var startState := BlockStartState(c.previousState);
        if startState != 0 {
          quote := '"';
        }
      }
      if ch == '\'' {
        return false;
      }
      if ch != quote || IsCompleteStringLiteral(tokenText) {
        return true;
      }
      return false;
    }
    return true;
  }

  /** Characters other than quotes, brackets and `;` are never completed. */
  lemma NoAutoParenthesesForOtherChars(c: Cursor, textToInsert: string, tokenize: string -> Option<seq<Token>>)
    requires !IsAutoParenthesisChar(FirstChar(textToInsert))
    ensures !ContextAllowsAutoParenthesesRule(c, textToInsert, tokenize)
  {
  }

  /** Nothing is completed inside a comment continued from the previous block. */
  lemma NoAutoParenthesesInCommentPrefix(c: Cursor, textToInsert: string, tokenize: string -> Option<seq<Token>>)
    requires InCommentPrefix(c)
    ensures !ContextAllowsAutoParenthesesRule(c, textToInsert, tokenize)
  {
  }

  /** A single quote is never completed inside a string. */
  lemma NoSingleQuoteInString(c: Cursor, textToInsert: string, tokenize: string -> Option<seq<Token>>)
    requires FirstChar(textToInsert) == '\'' && TokenUnderCursorRule(c, tokenize).kind == StringLiteral
    ensures !ContextAllowsAutoParenthesesRule(c, textToInsert, tokenize)
  {
  }

  /** The closing quote of an unfinished double-quoted string is not completed; every other bracket is, outside comments and strings. */
  lemma AutoParenthesesInCode(ch: char, token: Token, blockText: string, previousState: int)
    ensures token.kind != MultiLineComment && token.kind != StringLiteral && IsAutoParenthesisChar(ch)
      ==> AutoParenthesesAllowed(ch, token, blockText, previousState)
    ensures token.kind == StringLiteral && 0 <= token.start && 0 < token.length && token.start + token.length <= |blockText|
      && blockText[token.start] == '"' && !IsCompleteStringLiteral(blockText[token.start..token.End()])
      ==> !AutoParenthesesAllowed('"', token, blockText, previousState)
  {
  }

  /** `contextAllowsElectricCharacters`: not inside a comment continued from above or a string. */
  predicate ElectricCharactersAllowedRule(c: Cursor, tokenize: string -> Option<seq<Token>>) {
    var k := TokenUnderCursorRule(c, tokenize).kind;
    k != MultiLineComment && k != StringLiteral
  }

  method ContextAllowsElectricCharacters(c: Cursor, tokenize: string -> Option<seq<Token>>) returns (r: bool)
    ensures r == ElectricCharactersAllowedRule(c, tokenize)
  {
    var token := TokenUnderCursor(c, tokenize);
    r := !(token.kind == MultiLineComment || token.kind == StringLiteral);
  }

  /** `isInComment`: the token under the cursor is a comment. */
  predicate IsInCommentRule(c: Cursor, tokenize: string -> Option<seq<Token>>) {
    var k := TokenUnderCursorRule(c, tokenize).kind;
    k == MultiLineComment || k == LineComment
  }

  method IsInComment(c: Cursor, tokenize: string -> Option<seq<Token>>) returns (r: bool)
    ensures r == IsInCommentRule(c, tokenize)
  {
    var token := TokenUnderCursor(c, tokenize);
    r := token.kind == MultiLineComment || token.kind == LineComment;
  }

  /** In a comment continued from the previous block the cursor is in a comment, and electric characters are off. */
  lemma CommentPrefixIsComment(c: Cursor, tokenize: string -> Option<seq<Token>>)
    requires InCommentPrefix(c)
    ensures IsInCommentRule(c, tokenize) && !ElectricCharactersAllowedRule(c, tokenize)
  {
  }

  /** Outside comments and strings electric characters are on, and the cursor is not in a comment. */
  lemma CodeAllowsElectricCharacters(c: Cursor, tokenize: string -> Option<seq<Token>>)
    requires !IsTextToken(TokenUnderCursorRule(c, tokenize).kind)
    ensures ElectricCharactersAllowedRule(c, tokenize) && !IsInCommentRule(c, tokenize)
  {
  }

  // ---------------------------------------------------------------- insertion

  /** What typing a character inserts after the cursor, and how many characters it skips over. */
  datatype BraceInsertion = BraceInsertion(insert: string, skip: int)

  /** `insertMatchingBrace(cursor, text, _, skippedChars)` on values. */
  function MatchingBraceRule(c: Cursor, text: string): BraceInsertion {
    if |text| != 1 || !ShouldInsertMatchingText(CharacterAt(c.doc, c.selectionEnd)) then BraceInsertion("", 0)
    else
      var la := CharacterAt(c.doc, c.position);
      var ch := text[0];
      if ch == '\'' || ch == '"' then
        if la != ch then BraceInsertion([ch], 0) else BraceInsertion("", 1)
      else if ch == '(' then BraceInsertion(")", 0)
      else if ch == '[' then BraceInsertion("]", 0)
      else if ch == ')' || ch == ']' || ch == '}' || ch == ';' then
        BraceInsertion("", if la == ch then 1 else 0)
      else BraceInsertion("", 0)
  }

  /** `insertMatchingBrace`: the text to insert, and `skippedChars` after its increment. */
  method InsertMatchingBrace(c: Cursor, text: string, skippedChars: int) returns (r: string, skippedCharsOut: int)
    ensures r == MatchingBraceRule(c, text).insert
    ensures skippedCharsOut == skippedChars + MatchingBraceRule(c, text).skip
  {
    skippedCharsOut := skippedChars;
    if |text| != 1 {
      return "", skippedCharsOut;
    }
    if !ShouldInsertMatchingText(CharacterAt(c.doc, c.selectionEnd)) {
      return "", skippedCharsOut;
    }
    var la := CharacterAt(c.doc, c.position);
    var ch := text[0];
    if ch == '\'' || ch == '"' {
      if la != ch {
        return [ch], skippedCharsOut;
      }
      skippedCharsOut := skippedCharsOut + 1;
    } else if ch == '(' {
      return ")", skippedCharsOut;
    } else if ch == '[' {
      return "]", skippedCharsOut;
    } else if ch == '{' {
      return "", skippedCharsOut;
    } else if ch == ')' || ch == ']' || ch == '}' || ch == ';' {
      if la == ch {
        skippedCharsOut := skippedCharsOut + 1;
      }
    }
    return "", skippedCharsOut;
  }

  /**
   * A typed character either inserts its partner or skips the same character after the
   * cursor, never both, and only one character at most; nothing happens unless a single
   * character is typed before an allowed look-ahead.
   */
  lemma MatchingBraceShape(c: Cursor, text: string)
    ensures var b := MatchingBraceRule(c, text);
      (b.skip == 0 || b.skip == 1) && !(b.insert != [] && b.skip == 1)
      && (b.insert != [] || b.skip == 1 ==> |text| == 1 && ShouldInsertMatchingText(CharacterAt(c.doc, c.selectionEnd)))
      && (b.skip == 1 ==> CharacterAt(c.doc, c.position) == text[0])
      && (b.insert == ")" <==> text == "(" && ShouldInsertMatchingText(CharacterAt(c.doc, c.selectionEnd)))
      && (b.insert == "]" <==> text == "[" && ShouldInsertMatchingText(CharacterAt(c.doc, c.selectionEnd)))
  {
  }

  /** Opening `{` inserts nothing: the closing brace comes with the new line. */
  lemma OpeningBraceInsertsNothing(c: Cursor)
    ensures MatchingBraceRule(c, "{") == BraceInsertion("", 0)
  {
  }

  /**
   * What a completion inserts is skipped over when it is typed next: with the inserted
   * character right after the cursor, typing it moves over it instead of inserting.
   */
  lemma InsertedPartnerIsSkipped(c: Cursor, text: string, c2: Cursor)
    requires MatchingBraceRule(c, text).insert != []
    requires var p := MatchingBraceRule(c, text).insert[0];
      CharacterAt(c2.doc, c2.position) == p && CharacterAt(c2.doc, c2.selectionEnd) == p
    ensures MatchingBraceRule(c2, MatchingBraceRule(c, text).insert) == BraceInsertion("", 1)
  {
  }

  /** The rest of the cursor's block after the cursor. */
  function RestOfBlock(c: Cursor): string {
    var p := if c.positionInBlock < 0 then 0 else if c.positionInBlock > |c.blockText| then |c.blockText| else c.positionInBlock;
    c.blockText[p..]
  }

  /** `insertParagraphSeparator` on values: the text inserted after the new line for an open `{`. */
  function ParagraphSeparatorRule(c: Cursor): string
    requires 0 <= c.selectionEnd <= |c.doc|
  {
    if ShouldInsertNewlineRule(c) then (if Trimmed(RestOfBlock(c)) != [] then "" else "}\n") else "}"
  }

  /** `insertParagraphSeparator`. */
  method InsertParagraphSeparator(c: Cursor) returns (r: string)
    requires 0 <= c.selectionEnd <= |c.doc|
    ensures r == ParagraphSeparatorRule(c)
  {
    var newline := ShouldInsertNewline(c);
    if newline {
      if Trimmed(RestOfBlock(c)) != [] {
        return "";
      }
      return "}\n";
    }
    return "}";
  }

  /**
   * The closing brace comes on a line of its own exactly when little white space and no
   * `}` follows and the rest of the line is blank; it is left out when the rest of the
   * line has text, and otherwise inserted alone.
   */
  lemma ParagraphSeparatorCases(c: Cursor)
    requires 0 <= c.selectionEnd <= |c.doc|
    ensures ParagraphSeparatorRule(c) == "}\n" <==> ShouldInsertNewlineRule(c) && IsBlank(RestOfBlock(c))
    ensures ParagraphSeparatorRule(c) == "" <==> ShouldInsertNewlineRule(c) && !IsBlank(RestOfBlock(c))
    ensures ParagraphSeparatorRule(c) == "}" <==> !ShouldInsertNewlineRule(c)
  {
    TrimmedEmptyIffBlank(RestOfBlock(c));
  }

  /** A `}` right after the cursor is never doubled on a new line. */
  lemma ClosingBraceAheadStaysAlone(c: Cursor)
    requires 0 <= c.selectionEnd < |c.doc| && c.doc[c.selectionEnd] == '}'
    ensures ParagraphSeparatorRule(c) == "}"
  {
    assert !IsSpace('}');
  }
}
