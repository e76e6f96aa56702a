/**
 * The DSL indenter (dslindenter.cpp): which typed characters are electric, and the
 * decision `indentBlock` takes for a line: bring the formatter's cache up to the line,
 * compute its depth, and reindent it unless an electric character was typed on a line
 * whose indentation is not the one a new line would get.
 */
module Indenter {
  import opened Wrappers
  import opened TextUtil
  import opened FormatterTypes
  import opened FormatterRules
  import opened CodeFormatter

  /** `isElectricCharacter`: the characters that reindent the line when typed. */
  predicate IsElectricCharacter(ch: char) {
    ch == '{' || ch == '}' || ch == ']' || ch == ':'
  }

  /** The index of the first character of `text` that is not white space, or its length. */
  function FirstNonSpace(text: string): (n: int)
    ensures 0 <= n <= |text|
    ensures forall j :: 0 <= j < n ==> IsSpace(text[j])
    ensures n < |text| ==> !IsSpace(text[n])
  {
    if text == [] || !IsSpace(text[0]) then 0 else 1 + FirstNonSpace(text[1..])
  }

  /** TabSettings::indentationColumn: the column of the first character that is not white space. */
  function IndentationColumn(text: string, tabSize: int): int
    requires tabSize > 0
  {
    ColumnOf(text, FirstNonSpace(text), tabSize)
  }

  /** What `indentBlock` does to the line: leave it, or indent it to a depth (TabSettings::indentLine). */
  datatype IndentDecision = Untouched | IndentTo(depth: int)

  /**
   * `indentBlock(doc, block i, typedChar, tabSettings)` on values: the depth `indentFor`
   * computes after `updateStateUntil(i)`; -1 leaves the line; an electric character only
   * reindents a line indented as a new line after the previous one would be.
   */
  function IndentBlockRule(blocks: seq<Block>, i: int, typedChar: char, tabSize: int, indentSize: int,
                           tokenize: string -> Option<seq<Token>>): IndentDecision
    requires 0 <= i < |blocks| && tabSize > 0 && DocInvariant(blocks)
  {
    var b := UpdatedUntil(blocks, i, tabSize, indentSize, tokenize);
    var depth := IndentForRule(b, i, tabSize, tokenize);
    if depth == -1 then Untouched
    else if IsElectricCharacter(typedChar) && IndentationColumn(b[i].text, tabSize) != RestoredIndent(b, i - 1) then Untouched
    else IndentTo(depth)
  }

  /** The cache `indentBlock` leaves: updated up to the line, with the line's lexer state stored. */
  function IndentBlockCache(blocks: seq<Block>, i: int, tabSize: int, indentSize: int,
                            tokenize: string -> Option<seq<Token>>): seq<Block>
    requires 0 <= i < |blocks| && tabSize > 0 && DocInvariant(blocks)
  {
    IndentForBlocks(UpdatedUntil(blocks, i, tabSize, indentSize, tokenize), i, tokenize)
  }

  /** `indentBlock`: a formatter made from the tab settings updates the cache and computes the depth. */
  method IndentBlock(doc: TextDocument, i: int, typedChar: char, tabSize: int, indentSize: int,
                     tokenize: string -> Option<seq<Token>>) returns (decision: IndentDecision)
    requires doc.Valid() && 0 <= i < |doc.blocks| && tabSize > 0
    modifies doc
    ensures doc.Valid()
    ensures decision == IndentBlockRule(old(doc.blocks), i, typedChar, tabSize, indentSize, tokenize)
    ensures doc.blocks == IndentBlockCache(old(doc.blocks), i, tabSize, indentSize, tokenize)
  {
    var codeFormatter := new Formatter.FromTabSettings(tabSize, indentSize, tokenize);
    codeFormatter.UpdateStateUntil(doc, i);
    ghost var b := doc.blocks;
    assert i > 0 ==> Passes(b, i - 1);
    var depth := codeFormatter.IndentFor(doc, i);
    if depth == -1 {
      return Untouched;
    }
    if IsElectricCharacter(typedChar) {
      var newlineIndent := codeFormatter.IndentForNewLineAfter(doc, i - 1);
      assert RestoredIndent(doc.blocks, i - 1) == RestoredIndent(b, i - 1);
      if IndentationColumn(doc.blocks[i].text, tabSize) != newlineIndent {
        return Untouched;
      }
    }
    return IndentTo(depth);
  }

  /** `invalidateCache(doc)`: a default formatter drops every cached state. */
  method InvalidateCache(doc: TextDocument, tokenize: string -> Option<seq<Token>>)
    requires doc.Valid()
    modifies doc
    ensures doc.Valid() && doc.blocks == Invalidated(old(doc.blocks))
  {
    var codeFormatter := new Formatter(tokenize);
    codeFormatter.InvalidateCache(doc);
  }

  /**
   * An electric character never picks another depth than an ordinary one: it can only
   * leave alone a line that an ordinary character would reindent.
   */
  lemma ElectricOnlySuppresses(blocks: seq<Block>, i: int, typedChar: char, other: char, tabSize: int,
                               indentSize: int, tokenize: string -> Option<seq<Token>>)
    requires 0 <= i < |blocks| && tabSize > 0 && DocInvariant(blocks) && !IsElectricCharacter(other)
    ensures var d := IndentBlockRule(blocks, i, typedChar, tabSize, indentSize, tokenize);
      d.IndentTo? ==> d == IndentBlockRule(blocks, i, other, tabSize, indentSize, tokenize)
    ensures IndentBlockRule(blocks, i, other, tabSize, indentSize, tokenize).Untouched? ==>
      IndentBlockRule(blocks, i, typedChar, tabSize, indentSize, tokenize).Untouched?
  {
  }

  /**
   * Typing `}` at the start of a line inside an object definition: a line indented as a
   * new line would be is moved to the depth saved in the frame below the top, which is
   * where the object definition began; a line indented otherwise is left alone.
   */
  lemma TypedClosingBraceAligns(blocks: seq<Block>, i: int, tabSize: int, indentSize: int,
                                tokenize: string -> Option<seq<Token>>)
    requires 0 <= i < |blocks| && tabSize > 0 && DocInvariant(blocks) && blocks[i].text != []
    requires tokenize(blocks[i].text).Some? && |tokenize(blocks[i].text).value| > 0
    requires tokenize(blocks[i].text).value[0].kind == RightBrace
    ensures var b := UpdatedUntil(blocks, i, tabSize, indentSize, tokenize);
      var st := RestoredStack(b, i - 1);
      StateAt(st, 0).stateType == ObjectdefinitionOpen ==>
        IndentBlockRule(blocks, i, '}', tabSize, indentSize, tokenize)
        == if IndentationColumn(blocks[i].text, tabSize) == RestoredIndent(b, i - 1)
           then IndentTo(StateAt(st, 1).savedIndentDepth) else Untouched
  {
    var b := UpdatedUntil(blocks, i, tabSize, indentSize, tokenize);
    if StateAt(RestoredStack(b, i - 1), 0).stateType == ObjectdefinitionOpen {
      assert b[i].text == blocks[i].text;
      ClosingBraceAligns(b, i, tabSize, tokenize);
    }
  }

  /** On the first line a new line would have indentation 0, so an electric character only reindents an unindented line. */
  lemma FirstLineElectric(blocks: seq<Block>, typedChar: char, tabSize: int, indentSize: int,
                          tokenize: string -> Option<seq<Token>>)
    requires 0 < |blocks| && tabSize > 0 && DocInvariant(blocks) && IsElectricCharacter(typedChar)
    ensures IndentBlockRule(blocks, 0, typedChar, tabSize, indentSize, tokenize).IndentTo? ==>
      IndentationColumn(blocks[0].text, tabSize) == 0
  {
    var b := UpdatedUntil(blocks, 0, tabSize, indentSize, tokenize);
    assert b[0].text == blocks[0].text;
  }

  /**
   * Storing the lexer state of line `i` on a cache that is coherent up to it keeps it
   * coherent up to it, and changes nothing that `indentFor(i)` reads.
   */
  lemma IndentForBlocksKeepsCache(b: seq<Block>, i: int, tokenize: string -> Option<seq<Token>>)
    requires 0 <= i < |b| && DocInvariant(b) && Coherent(b, i)
    ensures var c := IndentForBlocks(b, i, tokenize);
      DocInvariant(c) && Coherent(c, i) && c[i].text == b[i].text
      && RestoredStack(c, i - 1) == RestoredStack(b, i - 1) && RestoredIndent(c, i - 1) == RestoredIndent(b, i - 1)
  {
    var c := IndentForBlocks(b, i, tokenize);
    assert i > 0 ==> Passes(b, i - 1);
    assert forall j :: 0 <= j < |b| && j != i ==> c[j] == b[j];
    forall j | 0 <= j < i
      ensures Passes(c, j)
    {
      PassesLocal(b, c, j);
    }
  }

  /**
   * Indenting the same line again, on the cache the first call left, takes the same
   * decision and leaves the same cache.
   */
  lemma IndentBlockStable(blocks: seq<Block>, i: int, typedChar: char, tabSize: int, indentSize: int,
                          tokenize: string -> Option<seq<Token>>)
    requires 0 <= i < |blocks| && tabSize > 0 && DocInvariant(blocks)
    ensures DocInvariant(IndentBlockCache(blocks, i, tabSize, indentSize, tokenize))
    ensures var c := IndentBlockCache(blocks, i, tabSize, indentSize, tokenize);
      IndentBlockRule(c, i, typedChar, tabSize, indentSize, tokenize)
      == IndentBlockRule(blocks, i, typedChar, tabSize, indentSize, tokenize)
      && IndentBlockCache(c, i, tabSize, indentSize, tokenize) == c
  {
    var b := UpdatedUntil(blocks, i, tabSize, indentSize, tokenize);
    var c := IndentForBlocks(b, i, tokenize);
    UpdatedUntilCoherent(blocks, i, tabSize, indentSize, tokenize);
    IndentForBlocksKeepsCache(b, i, tokenize);
    FirstStaleUnique(c, i, 0, i);
    assert UpdatedUntil(c, i, tabSize, indentSize, tokenize) == c;
    assert IndentForRule(c, i, tabSize, tokenize) == IndentForRule(b, i, tabSize, tokenize);
  }
}
