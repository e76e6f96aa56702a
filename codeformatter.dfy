/**
 * The DSL code formatter (dslcodeformatter.cpp): the text document whose blocks carry
 * the formatter's cache, the cache operations stated on values, and the formatter
 * class whose methods update its own fields and the document in place.
 */
module CodeFormatter {
  import opened Wrappers
  import opened TextUtil
  import opened FormatterTypes
  import opened FormatterRules

  // ---------------------------------------------------------------- the document

  /** The user data the editor attaches to a block: the lexer state and the formatter's entry. */
  datatype UserData = UserData(lexerState: int, formatterData: Option<BlockData>)

  /** A text block: its text, its revision, and its user data once created. */
  datatype Block = Block(text: string, revision: int, userData: Option<UserData>)

  /** `loadLexerState`: the stored lexer state, -1 for an invalid block or one without user data. */
  function LexerStateOf(blocks: seq<Block>, i: int): int {
    if 0 <= i < |blocks| && blocks[i].userData.Some? then blocks[i].userData.value.lexerState else -1
  }

  /** `loadBlockData`: the formatter's entry of block `i`, if the block is valid and has one. */
  function LoadBlockData(blocks: seq<Block>, i: int): Option<BlockData> {
    if 0 <= i < |blocks| && blocks[i].userData.Some? then blocks[i].userData.value.formatterData else None
  }

  /** `saveBlockData`: stores an entry, creating the user data (lexer state 0) if there is none. */
  function WithBlockData(b: Block, d: BlockData): (r: Block)
    ensures r.text == b.text && r.revision == b.revision
    ensures r.userData.Some? && r.userData.value.formatterData == Some(d)
    ensures r.userData.value.lexerState == if b.userData.Some? then b.userData.value.lexerState else 0
  {
    match b.userData
    case None => b.(userData := Some(UserData(0, Some(d))))
    case Some(u) => b.(userData := Some(u.(formatterData := Some(d))))
  }

  /** `saveLexerState`: stores a lexer state, creating the user data if there is none. */
  function WithLexerState(b: Block, s: int): (r: Block)
    ensures r.text == b.text && r.revision == b.revision
    ensures r.userData.Some? && r.userData.value.lexerState == s
    ensures r.userData.value.formatterData == if b.userData.Some? then b.userData.value.formatterData else None
  {
    match b.userData
    case None => b.(userData := Some(UserData(s, None)))
    case Some(u) => b.(userData := Some(u.(lexerState := s)))
  }

  /** What every block keeps: a stored lexer state is never -1, and a cache entry has one of its two shapes. */
  predicate BlockInvariant(b: Block) {
    b.userData.Some? ==>
      b.userData.value.lexerState != -1
      && (b.userData.value.formatterData.Some? ==> CacheShape(b.userData.value.formatterData.value))
  }

  predicate DocInvariant(blocks: seq<Block>) {
    forall j :: 0 <= j < |blocks| ==> BlockInvariant(blocks[j])
  }

  /** A QTextDocument reduced to what the formatter reads and writes: its blocks. */
  class TextDocument {
    var blocks: seq<Block>

    ghost predicate Valid() reads this {
      DocInvariant(blocks)
    }

    /** A document whose blocks have the given texts, revision 0 and no user data yet. */
    constructor (texts: seq<string>)
      ensures Valid() && |blocks| == |texts|
      ensures forall j :: 0 <= j < |texts| ==> blocks[j] == Block(texts[j], 0, None)
    {
      blocks := seq(|texts|, j requires 0 <= j < |texts| => Block(texts[j], 0, None));
    }
  }

  // ---------------------------------------------------------------- the cache on values

  /** The stack `restoreCurrentState(i)` restores: the end state cached on block `i`, or the initial stack. */
  function RestoredStack(blocks: seq<Block>, i: int): (r: Stack)
    ensures LoadBlockData(blocks, i).Some? ==> r == LoadBlockData(blocks, i).value.endState
    ensures LoadBlockData(blocks, i).None? ==> r == InitialStack
  {
    match LoadBlockData(blocks, i)
    case Some(d) => d.endState
    case None => InitialStack
  }

  /** The indent depth `restoreCurrentState(i)` restores: the cached one, or 0. */
  function RestoredIndent(blocks: seq<Block>, i: int): (r: int)
    ensures LoadBlockData(blocks, i).Some? ==> r == LoadBlockData(blocks, i).value.indentDepth
    ensures LoadBlockData(blocks, i).None? ==> r == 0
  {
    match LoadBlockData(blocks, i)
    case Some(d) => d.indentDepth
    case None => 0
  }

  /** The lexer state `tokenizeBlock` starts block `i` with: 0 for the first block, else the previous block's. */
  function StartLexerState(blocks: seq<Block>, i: int): int {
    if i == 0 then 0 else LexerStateOf(blocks, i - 1)
  }

  /** What `recalculateStateAfter` computes for one block, and the blocks it leaves behind. */
  datatype Recalc = Recalc(begin: Stack, tokens: seq<Token>, end: FState, blocks: seq<Block>)

  /**
   * `recalculateStateAfter(i)` on values: restore the previous block's end state,
   * tokenize the line (storing the lexer state unless the tokenizer fails), run the
   * token loop, and cache begin state, end state, indent and revision on block `i`.
   */
  function RecalcBlock(blocks: seq<Block>, i: int, tabSize: int, indentSize: int,
                       tokenize: string -> Option<seq<Token>>): (r: Recalc)
    requires 0 <= i < |blocks| && tabSize > 0 && WellFormed(RestoredStack(blocks, i - 1))
    ensures |r.blocks| == |blocks| && r.begin == RestoredStack(blocks, i - 1)
    ensures WellFormed(r.end.stack)
    ensures forall j :: 0 <= j < |blocks| && j != i ==> r.blocks[j] == blocks[j]
    ensures r.blocks[i].text == blocks[i].text && r.blocks[i].revision == blocks[i].revision
    ensures LoadBlockData(r.blocks, i) == Some(BlockData(r.begin, r.end.stack, r.end.indent, blocks[i].revision))
    ensures r.blocks[i].userData.Some?
    ensures DocInvariant(blocks) && StartLexerState(blocks, i) != -1 ==> DocInvariant(r.blocks)
  {
    var begin := RestoredStack(blocks, i - 1);
    var lt := LineTokens(blocks[i].text, StateAt(begin, 0).stateType == MultilineComment, tokenize);
    var b1 := if lt.1 then blocks[i := WithLexerState(blocks[i], StartLexerState(blocks, i))] else blocks;
    var c := LineCtx(blocks[i].text, lt.0, tabSize, indentSize);
    var fs := RunLine(c, FState(begin, [], RestoredIndent(blocks, i - 1)), 0);
    var b2 := b1[i := WithBlockData(b1[i], BlockData(begin, fs.stack, fs.indent, blocks[i].revision))];
    Recalc(begin, lt.0, fs, b2)
  }

  /** The checks `updateStateUntil` makes of a block before it trusts its cache entry. */
  predicate Passes(blocks: seq<Block>, j: int) {
    match LoadBlockData(blocks, j)
    case None => false
    case Some(d) =>
      d.blockRevision == blocks[j].revision && d.beginState == RestoredStack(blocks, j - 1)
      && LexerStateOf(blocks, j) != -1
  }

  /** Whether a block passes depends only on it and the block before it. */
  lemma PassesLocal(a: seq<Block>, b: seq<Block>, j: int)
    requires 0 <= j < |a| && j < |b| && a[j] == b[j] && (j > 0 ==> a[j - 1] == b[j - 1])
    ensures Passes(a, j) == Passes(b, j)
  {
  }

  /** Every block before `e` has a trusted cache entry. */
  predicate Coherent(blocks: seq<Block>, e: int) {
    forall j :: 0 <= j < e ==> Passes(blocks, j)
  }

  /** The block the first loop of `updateStateUntil` stops at: the first block from `j` that fails, or `e`. */
  function FirstStale(blocks: seq<Block>, e: int, j: int): (k: int)
    requires 0 <= j <= e <= |blocks|
    ensures j <= k <= e
    ensures forall i :: j <= i < k ==> Passes(blocks, i)
    ensures k < e ==> !Passes(blocks, k)
    decreases e - j
  {
    if j == e || !Passes(blocks, j) then j else FirstStale(blocks, e, j + 1)
  }

  /** The first failing block is determined: any index with all blocks before it passing and itself failing (or `e`) is it. */
  lemma {:induction false} FirstStaleUnique(blocks: seq<Block>, e: int, j: int, k: int)
    requires 0 <= j <= k <= e <= |blocks|
    requires forall i :: j <= i < k ==> Passes(blocks, i)
    requires k == e || !Passes(blocks, k)
    ensures FirstStale(blocks, e, j) == k
    decreases k - j
  {
    if j < k {
      FirstStaleUnique(blocks, e, j + 1, k);
    }
  }

  /** Along a chain of passing blocks the cached end states stay well formed. */
  lemma {:induction false} PassingChainWellFormed(blocks: seq<Block>, k: int)
    requires DocInvariant(blocks) && 0 <= k <= |blocks| && Coherent(blocks, k)
    ensures WellFormed(RestoredStack(blocks, k - 1))
    decreases k
  {
    if k > 0 {
      PassingChainWellFormed(blocks, k - 1);
      assert Passes(blocks, k - 1);
      var d := LoadBlockData(blocks, k - 1).value;
      assert BlockInvariant(blocks[k - 1]);
      assert d.beginState == RestoredStack(blocks, k - 2);
    }
  }

  /** `recalculateStateAfter` applied to blocks `lo` up to `hi - 1`, in order. */
  function RecalcRange(blocks: seq<Block>, lo: int, hi: int, tabSize: int, indentSize: int,
                       tokenize: string -> Option<seq<Token>>): (r: seq<Block>)
    requires 0 <= lo <= hi <= |blocks| && tabSize > 0 && DocInvariant(blocks)
    requires WellFormed(RestoredStack(blocks, lo - 1)) && StartLexerState(blocks, lo) != -1
    ensures |r| == |blocks| && DocInvariant(r)
    ensures forall j :: 0 <= j < |blocks| && !(lo <= j < hi) ==> r[j] == blocks[j]
    ensures forall j :: 0 <= j < |blocks| ==> r[j].text == blocks[j].text && r[j].revision == blocks[j].revision
    decreases hi - lo
  {
    if lo == hi then blocks
    else
      var b := RecalcBlock(blocks, lo, tabSize, indentSize, tokenize).blocks;
      RecalcReady(blocks, lo, tabSize, indentSize, tokenize);
      RecalcRange(b, lo + 1, hi, tabSize, indentSize, tokenize)
  }

  /** After block `i` is recomputed, block `i + 1` can be: its predecessor's end state is well formed and its lexer state is stored. */
  lemma RecalcReady(blocks: seq<Block>, i: int, tabSize: int, indentSize: int,
                    tokenize: string -> Option<seq<Token>>)
    requires 0 <= i < |blocks| && tabSize > 0 && DocInvariant(blocks)
    requires WellFormed(RestoredStack(blocks, i - 1)) && StartLexerState(blocks, i) != -1
    ensures var b := RecalcBlock(blocks, i, tabSize, indentSize, tokenize).blocks;
      WellFormed(RestoredStack(b, i)) && StartLexerState(b, i + 1) != -1
  {
    var b := RecalcBlock(blocks, i, tabSize, indentSize, tokenize).blocks;
    assert BlockInvariant(b[i]);
  }

  /**
   * The state of the second loop of `updateStateUntil(e)` at block `it`: block `it` can
   * be recomputed, and recomputing blocks `it` up to `e - 1` gives `target`.
   */
  predicate RangePending(blocks: seq<Block>, it: int, e: int, tabSize: int, indentSize: int,
                         tokenize: string -> Option<seq<Token>>, target: seq<Block>) {
    0 <= it <= e < |blocks| && tabSize > 0 && DocInvariant(blocks)
    && WellFormed(RestoredStack(blocks, it - 1)) && StartLexerState(blocks, it) != -1
    && RecalcRange(blocks, it, e, tabSize, indentSize, tokenize) == target
  }

  /** A recomputed block passes the cache checks. */
  lemma RecalcBlockPasses(blocks: seq<Block>, i: int, tabSize: int, indentSize: int,
                          tokenize: string -> Option<seq<Token>>)
    requires 0 <= i < |blocks| && tabSize > 0 && DocInvariant(blocks)
    requires WellFormed(RestoredStack(blocks, i - 1)) && StartLexerState(blocks, i) != -1
    ensures Passes(RecalcBlock(blocks, i, tabSize, indentSize, tokenize).blocks, i)
  {
    var b := RecalcBlock(blocks, i, tabSize, indentSize, tokenize).blocks;
    assert RestoredStack(b, i - 1) == RestoredStack(blocks, i - 1);
    assert BlockInvariant(b[i]);
  }

  /** Every block a range recomputation touched now passes the cache checks. */
  lemma {:induction false} RecalcRangePasses(blocks: seq<Block>, lo: int, hi: int, tabSize: int, indentSize: int,
                                             tokenize: string -> Option<seq<Token>>)
    requires 0 <= lo <= hi <= |blocks| && tabSize > 0 && DocInvariant(blocks)
    requires WellFormed(RestoredStack(blocks, lo - 1)) && StartLexerState(blocks, lo) != -1
    ensures forall j :: lo <= j < hi ==> Passes(RecalcRange(blocks, lo, hi, tabSize, indentSize, tokenize), j)
    decreases hi - lo
  {
    if lo < hi {
      var b := RecalcBlock(blocks, lo, tabSize, indentSize, tokenize).blocks;
      RecalcReady(blocks, lo, tabSize, indentSize, tokenize);
      RecalcBlockPasses(blocks, lo, tabSize, indentSize, tokenize);
      RecalcRangePasses(b, lo + 1, hi, tabSize, indentSize, tokenize);
      var r := RecalcRange(b, lo + 1, hi, tabSize, indentSize, tokenize);
      PassesLocal(b, r, lo);
    }
  }

  /**
   * `updateStateUntil(e)` on values: find the first block whose cache entry cannot be
   * trusted; if it is `e` nothing changes; otherwise recompute every block from there
   * up to `e` and mark block `e` invalid with a default entry.
   */
  function UpdatedUntil(blocks: seq<Block>, e: int, tabSize: int, indentSize: int,
                        tokenize: string -> Option<seq<Token>>): (r: seq<Block>)
    requires 0 <= e < |blocks| && tabSize > 0 && DocInvariant(blocks)
    ensures |r| == |blocks| && DocInvariant(r)
    ensures forall j :: 0 <= j < |blocks| ==> r[j].text == blocks[j].text && r[j].revision == blocks[j].revision
    ensures forall j :: 0 <= j < FirstStale(blocks, e, 0) ==> r[j] == blocks[j]
    ensures FirstStale(blocks, e, 0) == e ==> r == blocks
    ensures FirstStale(blocks, e, 0) < e ==> LoadBlockData(r, e) == Some(DefaultBlockData)
  {
    var k := FirstStale(blocks, e, 0);
    if k == e then blocks
    else
      PassingChainWellFormed(blocks, k);
      assert k > 0 ==> Passes(blocks, k - 1);
      var b := RecalcRange(blocks, k, e, tabSize, indentSize, tokenize);
      b[e := WithBlockData(b[e], DefaultBlockData)]
  }

  /**
   * After `updateStateUntil(e)` every block before `e` has a trusted cache entry, which
   * is what makes `indentFor(e)` safe afterwards.
   */
  lemma UpdatedUntilCoherent(blocks: seq<Block>, e: int, tabSize: int, indentSize: int,
                             tokenize: string -> Option<seq<Token>>)
    requires 0 <= e < |blocks| && tabSize > 0 && DocInvariant(blocks)
    ensures Coherent(UpdatedUntil(blocks, e, tabSize, indentSize, tokenize), e)
  {
    var k := FirstStale(blocks, e, 0);
    var r := UpdatedUntil(blocks, e, tabSize, indentSize, tokenize);
    if k < e {
      PassingChainWellFormed(blocks, k);
      assert k > 0 ==> Passes(blocks, k - 1);
      var b := RecalcRange(blocks, k, e, tabSize, indentSize, tokenize);
      RecalcRangePasses(blocks, k, e, tabSize, indentSize, tokenize);
      assert r == b[e := WithBlockData(b[e], DefaultBlockData)];
      forall j | 0 <= j < e ensures Passes(r, j) {
        PassesLocal(b, r, j);
        if j < k {
          PassesLocal(blocks, b, j);
        }
      }
    }
  }

  /** A second `updateStateUntil(e)` recomputes nothing. */
  lemma UpdatedUntilIdempotent(blocks: seq<Block>, e: int, tabSize: int, indentSize: int,
                               tokenize: string -> Option<seq<Token>>)
    requires 0 <= e < |blocks| && tabSize > 0 && DocInvariant(blocks)
    ensures var r := UpdatedUntil(blocks, e, tabSize, indentSize, tokenize);
      UpdatedUntil(r, e, tabSize, indentSize, tokenize) == r
  {
    var r := UpdatedUntil(blocks, e, tabSize, indentSize, tokenize);
    UpdatedUntilCoherent(blocks, e, tabSize, indentSize, tokenize);
    FirstStaleUnique(r, e, 0, e);
  }

  /** `invalidateCache` on values: every block gets the default entry. */
  function Invalidated(blocks: seq<Block>): (r: seq<Block>)
    ensures |r| == |blocks|
    ensures forall j :: 0 <= j < |blocks| ==> r[j] == WithBlockData(blocks[j], DefaultBlockData)
  {
    seq(|blocks|, j requires 0 <= j < |blocks| => WithBlockData(blocks[j], DefaultBlockData))
  }

  /** After the cache is invalidated the first block fails, so the next update recomputes from the first line. */
  lemma InvalidatedRecomputesAll(blocks: seq<Block>, e: int)
    requires 0 < e <= |blocks|
    ensures !Passes(Invalidated(blocks), 0)
    ensures FirstStale(Invalidated(blocks), e, 0) == 0
  {
    assert LoadBlockData(Invalidated(blocks), 0) == Some(DefaultBlockData);
  }

  /** `updateLineStateChange(i)` on values: recompute block `i` unless its entry has the block's revision, then invalidate the next block. */
  function LineStateChanged(blocks: seq<Block>, i: int, tabSize: int, indentSize: int,
                            tokenize: string -> Option<seq<Token>>): (r: seq<Block>)
    requires tabSize > 0
    requires CanRecalcLine(blocks, i)
    ensures |r| == |blocks|
    ensures !(0 <= i < |blocks|) ==> r == blocks
    ensures LineIsFresh(blocks, i) ==> r == blocks
  {
    if !(0 <= i < |blocks|) || LineIsFresh(blocks, i) then blocks
    else
      var b := RecalcBlock(blocks, i, tabSize, indentSize, tokenize).blocks;
      if i + 1 < |b| then b[i + 1 := WithBlockData(b[i + 1], DefaultBlockData)] else b
  }

  /** Block `i`'s cache entry carries the block's revision. */
  predicate LineIsFresh(blocks: seq<Block>, i: int) {
    LoadBlockData(blocks, i).Some? && 0 <= i < |blocks|
    && LoadBlockData(blocks, i).value.blockRevision == blocks[i].revision
  }

  /**
   * What `updateLineStateChange(i)` needs to recompute block `i`: a non-empty stack hi
   * restore (the token loop reads its top) and a previous lexer state (asserted by `tokenizeBlock`).
   */
  predicate CanRecalcLine(blocks: seq<Block>, i: int) {
    0 <= i < |blocks| && !LineIsFresh(blocks, i) ==>
      WellFormed(RestoredStack(blocks, i - 1)) && StartLexerState(blocks, i) != -1
  }

  /** The depth `indentFor(i)` computes from the cache of the previous block and the tokens of line `i`. */
  function IndentForRule(blocks: seq<Block>, i: int, tabSize: int, tokenize: string -> Option<seq<Token>>): (r: int)
    requires 0 <= i < |blocks| && tabSize > 0
  {
    var st := RestoredStack(blocks, i - 1);
    var lt := LineTokens(blocks[i].text, StateAt(st, 0).stateType == MultilineComment, tokenize);
    AdjustIndentRule(blocks[i].text, lt.0, st, tabSize, RestoredIndent(blocks, i - 1))
  }

  /** `indentFor` stores the lexer state of line `i` as a side effect (unless the tokenizer fails). */
  function IndentForBlocks(blocks: seq<Block>, i: int, tokenize: string -> Option<seq<Token>>): (r: seq<Block>)
    requires 0 <= i < |blocks|
    ensures |r| == |blocks|
    ensures forall j :: 0 <= j < |blocks| ==> r[j].text == blocks[j].text && r[j].revision == blocks[j].revision
    ensures forall j :: 0 <= j < |blocks| ==> LoadBlockData(r, j) == LoadBlockData(blocks, j)
  {
    var st := RestoredStack(blocks, i - 1);
    var lt := LineTokens(blocks[i].text, StateAt(st, 0).stateType == MultilineComment, tokenize);
    if lt.1 then blocks[i := WithLexerState(blocks[i], StartLexerState(blocks, i))] else blocks
  }

  /**
   * A line that opens with `}` inside an object definition is indented to the depth
   * saved in the frame below the top of the previous line's end state.
   */
  lemma ClosingBraceAligns(blocks: seq<Block>, i: int, tabSize: int, tokenize: string -> Option<seq<Token>>)
    requires 0 <= i < |blocks| && tabSize > 0
    requires StateAt(RestoredStack(blocks, i - 1), 0).stateType == ObjectdefinitionOpen
    requires tokenize(blocks[i].text).Some? && blocks[i].text != []
    requires |tokenize(blocks[i].text).value| > 0 && tokenize(blocks[i].text).value[0].kind == RightBrace
    ensures IndentForRule(blocks, i, tabSize, tokenize) == StateAt(RestoredStack(blocks, i - 1), 1).savedIndentDepth
  {
  }

  // ---------------------------------------------------------------- the formatter

  /** A DslCodeFormatter: the scanning state of the line being processed and the indent settings. */
  class Formatter {
    var beginState: Stack
    var currentState: Stack
    var newStates: Stack
    var tokens: seq<Token>
    var currentLine: string
    var currentToken: Token
    var tokenIndex: int
    var indentDepth: int
    var tabSize: int
    var indentSize: int
    /** The DSL tokenizer: the tokens of a text, or None when it reports an error. */
    const tokenize: string -> Option<seq<Token>>

    ghost predicate Valid() reads this`tabSize {
      tabSize > 0
    }

    /** The line context the rules see. */
    ghost function Ctx(): LineCtx reads this`currentLine, this`tokens, this`tabSize, this`indentSize {
      LineCtx(currentLine, tokens, tabSize, indentSize)
    }

    /** The stack part of the state. */
    ghost function FS(): FState reads this`currentState, this`newStates, this`indentDepth {
      FState(currentState, newStates, indentDepth)
    }

    /** The default formatter: tab size 4, indent size 4. */
    constructor (tokenize: string -> Option<seq<Token>>)
      ensures Valid() && tabSize == 4 && indentSize == 4 && indentDepth == 0 && this.tokenize == tokenize
    {
      this.tokenize := tokenize;
      tabSize := 4;
      indentSize := 4;
      indentDepth := 0;
      beginState, currentState, newStates := [], [], [];
      tokens, currentLine, currentToken, tokenIndex := [], [], EmptyToken, 0;
    }

    /** The formatter set up from the editor's tab settings. */
    constructor FromTabSettings(tabSize: int, indentSize: int, tokenize: string -> Option<seq<Token>>)
      ensures this.tabSize == tabSize && this.indentSize == indentSize && indentDepth == 0
      ensures this.tokenize == tokenize
    {
      this.tokenize := tokenize;
      this.tabSize := tabSize;
      this.indentSize := indentSize;
      indentDepth := 0;
      beginState, currentState, newStates := [], [], [];
      tokens, currentLine, currentToken, tokenIndex := [], [], EmptyToken, 0;
    }

    method SetTabSize(size: int)
      modifies this`tabSize
      ensures tabSize == size
    {
      tabSize := size;
    }

    method SetIndentSize(size: int)
      modifies this`indentSize
      ensures indentSize == size
    {
      indentSize := size;
    }

    /** `column(index)`. */
    method Column(index: int) returns (col: int)
      requires Valid()
      ensures col == ColumnOf(currentLine, index, tabSize)
    {
      var n := if index > |currentLine| then |currentLine| else index;
      col := 0;
      var i := 0;
      while i < n
        invariant 0 <= i <= (if n < 0 then 0 else n) <= |currentLine|
        invariant col == PrefixColumn(currentLine[..i], tabSize)
      {
        assert currentLine[..i + 1][..i] == currentLine[..i];
        if currentLine[i] == '\t' {
          col := ((col / tabSize) + 1) * tabSize;
        } else {
          col := col + 1;
        }
        i := i + 1;
      }
    }

    /**
     * `onEnter`: the indent depth and saved depth for entering `newState` at the current
     * token.  The columns and the continuation walk are computed here; the case analysis
     * on the new state is EnterDepths.
     */
    method OnEnter(newState: StateType, indent: int, saved: int) returns (newIndent: int, newSaved: int)
      requires Valid() && currentToken == TokenAt(tokens, tokenIndex)
      requires newState == ExpressionMaybeContinuation ==> WellFormed(currentState) && |currentState| >= 2
      ensures (newIndent, newSaved) == OnEnterRule(Ctx(), currentState, tokenIndex, newState, indent, saved)
    {
      var tokenPosition := Column(currentToken.start);
      var firstPosition := tokenPosition;
      if newState == FunctionStart {
        firstPosition := Column(TokenAt(tokens, 0).start);
      }
      var continuation := indent;
      if newState == ExpressionMaybeContinuation {
        continuation := MaybeContinuation(indent);
      }
      var view := EnterView(StateAt(currentState, 0), StateAt(currentState, 1), tokenPosition, firstPosition,
                            tokenIndex == 0, tokenIndex == |tokens| - 1, indentSize, continuation);
      var depths := EnterDepths(view, newState, indent, saved);
      newIndent, newSaved := depths.0, depths.1;
    }

    /** The loop of `onEnter` for a possible continuation: the depth saved below the innermost expression-ending frame. */
    method MaybeContinuation(indent: int) returns (newIndent: int)
      requires WellFormed(currentState) && |currentState| >= 2
      ensures newIndent == MaybeContinuationIndent(currentState, 1, indent)
    {
      newIndent := indent;
      var i := 1;
      while StateAt(currentState, i).stateType != TopmostIntro
        invariant 1 <= i < |currentState|
        invariant MaybeContinuationIndent(currentState, i, indent) == MaybeContinuationIndent(currentState, 1, indent)
        decreases |currentState| - i
      {
        var t := StateAt(currentState, i).stateType;
        if IsExpressionEndState(t) && !IsBracelessState(t) {
          newIndent := StateAt(currentState, i - 1).savedIndentDepth;
          return;
        }
        i := i + 1;
      }
    }

    /** `enter`: push a frame recording the new indent depth on both stacks. */
    method Enter(newState: StateType)
      requires Valid() && currentToken == TokenAt(tokens, tokenIndex)
      requires newState == ExpressionMaybeContinuation ==> WellFormed(currentState) && |currentState| >= 2
      modifies this`currentState, this`newStates, this`indentDepth
      ensures FS() == EnterF(Ctx(), old(FS()), tokenIndex, newState)
    {
      var savedIndentDepth := indentDepth;
      var ind, _ := OnEnter(newState, indentDepth, savedIndentDepth);
      indentDepth := ind;
      var s := State(newState, ToU16(indentDepth));
      currentState := currentState + [s];
      newStates := newStates + [s];
    }

    /** `leave`: pop the top frame unless it is the topmost one, and restore its parent's depth. */
    method Leave()
      requires |currentState| > 1
      modifies this`currentState, this`newStates, this`indentDepth
      ensures FS() == LeaveF(old(FS()))
    {
      if currentState[|currentState| - 1].stateType == TopmostIntro {
        return;
      }
      if |newStates| > 0 {
        newStates := newStates[..|newStates| - 1];
      }
      currentState := currentState[..|currentState| - 1];
      indentDepth := currentState[|currentState| - 1].savedIndentDepth;
    }

    /** `turnInto`: leave, then enter `newState`. */
    method TurnInto(newState: StateType)
      requires Valid() && currentToken == TokenAt(tokens, tokenIndex) && |currentState| > 1
      requires newState != ExpressionMaybeContinuation
      modifies this`currentState, this`newStates, this`indentDepth
      ensures FS() == TurnIntoF(Ctx(), old(FS()), tokenIndex, newState)
    {
      Leave();
      Enter(newState);
    }

    /** An action of the transition table carried out with `enter`, `leave` or `turnInto`. */
    method Perform(a: Action)
      requires Valid() && WellFormed(currentState) && currentToken == TokenAt(tokens, tokenIndex)
      requires a.Push? ==> a.state != TopmostIntro && a.state != ExpressionMaybeContinuation
      requires a.Replace? ==>
        a.state != TopmostIntro && a.state != ExpressionMaybeContinuation && StateAt(currentState, 0).stateType != TopmostIntro
      requires a.Pop? ==> StateAt(currentState, 0).stateType != TopmostIntro
      modifies this`currentState, this`newStates, this`indentDepth
      ensures FS() == Apply(Ctx(), old(FS()), tokenIndex, a)
    {
      match a {
        case Keep =>
        case Push(t) => Enter(t);
        case Pop => Leave();
        case Replace(t) => TurnInto(t);
      }
    }

    /**
     * One pass of the token loop of `recalculateStateAfter`: the switch on the top state
     * and the token type, looked up in the transition table, then carried out.
     * `consumed` is false where the source says `continue`.
     */
    method ProcessToken() returns (consumed: bool)
      requires Valid() && WellFormed(currentState) && 0 <= tokenIndex < |tokens|
      requires currentToken == tokens[tokenIndex]
      modifies this`currentState, this`newStates, this`indentDepth
      ensures FS() == Step(Ctx(), old(FS()), tokenIndex).next
      ensures consumed == Step(Ctx(), old(FS()), tokenIndex).consumed
    {
      var top := currentState[|currentState| - 1].stateType;
      var commentAtStart := IndexOf(currentLine, "*/") == 0;
      var move := Transition(top, currentToken.kind, commentAtStart);
      Perform(move.action);
      consumed := move.consumed;
    }

    /** `restoreCurrentState(i)`: the cached end state and depth of block `i`, or the initial state. */
    method RestoreCurrentState(doc: TextDocument, i: int)
      modifies this`currentState, this`beginState, this`indentDepth
      ensures currentState == RestoredStack(doc.blocks, i) && beginState == currentState
      ensures indentDepth == RestoredIndent(doc.blocks, i)
    {
      var data := LoadBlockData(doc.blocks, i);
      if data.Some? {
        indentDepth := data.value.indentDepth;
        currentState := data.value.endState;
        beginState := currentState;
        return;
      }
      currentState := InitialStack;
      beginState := currentState;
      indentDepth := 0;
    }

    /** `saveCurrentState(i)`: cache begin state, end state, depth and the block's revision on block `i`. */
    method SaveCurrentState(doc: TextDocument, i: int)
      requires doc.Valid() && CacheShape(BlockData(beginState, currentState, indentDepth, 0))
      modifies doc
      ensures doc.Valid()
      ensures 0 <= i < |old(doc.blocks)| ==> doc.blocks == old(doc.blocks)[i :=
        WithBlockData(old(doc.blocks)[i], BlockData(beginState, currentState, indentDepth, old(doc.blocks)[i].revision))]
      ensures !(0 <= i < |old(doc.blocks)|) ==> doc.blocks == old(doc.blocks)
    {
      if !(0 <= i < |doc.blocks|) {
        return;
      }
      var data := BlockData(beginState, currentState, indentDepth, doc.blocks[i].revision);
      doc.blocks := doc.blocks[i := WithBlockData(doc.blocks[i], data)];
    }

    /** `tokenizeBlock(i)`: the tokens of line `i`, storing the start lexer state unless the tokenizer fails. */
    method TokenizeBlock(doc: TextDocument, i: int) returns (lexerState: int)
      requires doc.Valid() && 0 <= i < |doc.blocks| && StartLexerState(doc.blocks, i) != -1
      modifies this`tokens, this`currentLine, doc
      ensures doc.Valid()
      ensures var lt := LineTokens(old(doc.blocks)[i].text, StateAt(currentState, 0).stateType == MultilineComment, tokenize);
        tokens == lt.0 && currentLine == old(doc.blocks)[i].text
        && lexerState == (if lt.1 then StartLexerState(old(doc.blocks), i) else -1)
        && doc.blocks == if lt.1 then old(doc.blocks)[i := WithLexerState(old(doc.blocks)[i], StartLexerState(old(doc.blocks), i))]
                        else old(doc.blocks)
    {
      var startState := LexerStateOf(doc.blocks, i - 1);
      if i == 0 {
        startState := 0;
      }
      tokens := [];
      var blockText := doc.blocks[i].text;
      currentLine := blockText;
      if StateAt(currentState, 0).stateType == MultilineComment {
        var indexCommentOff := IndexOf(blockText, "*/");
        if indexCommentOff >= 0 {
          tokens := tokens + [Token(0, indexCommentOff + 2, MultiLineComment)];
          blockText := blockText[indexCommentOff + 2..];
        } else {
          tokens := tokens + [Token(0, |blockText|, MultiLineComment)];
          blockText := [];
        }
      }
      assert blockText == TokenizedPart(currentLine, StateAt(currentState, 0).stateType == MultilineComment);
      if |blockText| > 0 {
        var result := tokenize(blockText);
        if result.None? {
          return -1;
        }
        tokens := tokens + result.value;
      }
      lexerState := startState;
      doc.blocks := doc.blocks[i := WithLexerState(doc.blocks[i], lexerState)];
    }

    /** The token loop of `recalculateStateAfter`: process the line's tokens from the current one on. */
    method ProcessTokens()
      requires Valid() && WellFormed(currentState) && 0 <= tokenIndex <= |tokens|
      modifies this`currentState, this`newStates, this`indentDepth, this`currentToken, this`tokenIndex
      ensures FS() == RunLine(Ctx(), old(FS()), old(tokenIndex)) && tokenIndex == |tokens|
    {
      ghost var c := Ctx();
      ghost var target := RunLine(c, FS(), tokenIndex);
      while tokenIndex < |tokens|
        invariant 0 <= tokenIndex <= |tokens| && WellFormed(currentState) && Ctx() == c
        invariant RunLine(c, FS(), tokenIndex) == target
        decreases |tokens| - tokenIndex, Measure(FS())
      {
        NextToken(c, target);
      }
    }

    /** One iteration of the token loop: take the current token, process it, and move on unless told to `continue`. */
    method NextToken(ghost c: LineCtx, ghost target: FState)
      requires Valid() && WellFormed(currentState) && 0 <= tokenIndex < |tokens| && Ctx() == c
      requires RunLine(c, FS(), tokenIndex) == target
      modifies this`currentState, this`newStates, this`indentDepth, this`currentToken, this`tokenIndex
      ensures WellFormed(currentState) && old(tokenIndex) <= tokenIndex <= old(tokenIndex) + 1
      ensures RunLine(c, FS(), tokenIndex) == target
      ensures tokenIndex == old(tokenIndex) ==> Measure(FS()) < Measure(old(FS()))
    {
      ghost var before := FS();
      ghost var previousIndex := tokenIndex;
      currentToken := TokenAt(tokens, tokenIndex);
      var consumed := ProcessToken();
      if consumed {
        tokenIndex := tokenIndex + 1;
      }
      RunLineUnfold(c, before, previousIndex);
    }

    /** `recalculateStateAfter(i)`: process line `i` from the previous line's cached state and cache the result. */
    method RecalculateStateAfter(doc: TextDocument, i: int)
      requires Valid() && doc.Valid() && 0 <= i < |doc.blocks|
      requires WellFormed(RestoredStack(doc.blocks, i - 1)) && StartLexerState(doc.blocks, i) != -1
      modifies this`beginState, this`currentState, this`newStates, this`tokens, this`currentLine,
        this`currentToken, this`tokenIndex, this`indentDepth, doc
      ensures doc.Valid()
      ensures var r := RecalcBlock(old(doc.blocks), i, tabSize, indentSize, tokenize);
        doc.blocks == r.blocks && beginState == r.begin && tokens == r.tokens
        && FS() == r.end && currentLine == old(doc.blocks)[i].text && tokenIndex == |r.tokens|
    {
      RestoreCurrentState(doc, i - 1);
      var _ := TokenizeBlock(doc, i);
      tokenIndex := 0;
      newStates := [];
      ProcessTokens();
      SaveCurrentState(doc, i);
    }

    /** `indentFor(i)`: the depth for line `i`, from the previous line's cached state and line `i`'s tokens. */
    method IndentFor(doc: TextDocument, i: int) returns (depth: int)
      requires Valid() && doc.Valid() && 0 <= i < |doc.blocks| && StartLexerState(doc.blocks, i) != -1
      modifies this`beginState, this`currentState, this`newStates, this`tokens, this`currentLine,
        this`currentToken, this`tokenIndex, this`indentDepth, doc
      ensures doc.Valid()
      ensures depth == IndentForRule(old(doc.blocks), i, tabSize, tokenize)
      ensures doc.blocks == IndentForBlocks(old(doc.blocks), i, tokenize)
    {
      RestoreCurrentState(doc, i - 1);
      var _ := TokenizeBlock(doc, i);
      indentDepth := AdjustIndent(tokens, indentDepth);
      depth := indentDepth;
    }

    /** `indentForNewLineAfter(i)`: the depth for a new line typed after line `i`. */
    method IndentForNewLineAfter(doc: TextDocument, i: int) returns (depth: int)
      requires Valid()
      modifies this`beginState, this`currentState, this`newStates, this`tokens, this`currentLine,
        this`currentToken, this`tokenIndex, this`indentDepth
      ensures depth == RestoredIndent(doc.blocks, i)
    {
      RestoreCurrentState(doc, i);
      tokens := [];
      currentLine := [];
      indentDepth := AdjustIndent(tokens, indentDepth);
      depth := indentDepth;
    }

    /** `adjustIndent`: the depth for a line with `lineTokens`, given the restored state. */
    method AdjustIndent(lineTokens: seq<Token>, indent: int) returns (r: int)
      requires Valid()
      ensures r == AdjustIndentRule(currentLine, lineTokens, currentState, tabSize, indent)
    {
      var topState := StateAt(currentState, 0);
      var previousState := StateAt(currentState, 1);
      if topState.stateType == MultilineComment && |lineTokens| > 0 {
        r := Column(lineTokens[0].start);
        return;
      }
      r := indent;
      var kind := TokenAt(lineTokens, 0).kind;
      if kind == LeftBrace {
        if topState.stateType == BindingAssignment {
          r := topState.savedIndentDepth;
        }
      } else if kind == RightBrace {
        if topState.stateType == ObjectdefinitionOpen || topState.stateType == Expression {
          r := previousState.savedIndentDepth;
        }
      }
    }

    /**
     * The first loop of `updateStateUntil(e)`: walk the blocks while their cache entries
     * can be trusted, and stop at the first one that cannot.
     */
    method FindFirstStale(doc: TextDocument, e: int) returns (it: int)
      requires 0 <= e < |doc.blocks|
      ensures it == FirstStale(doc.blocks, e, 0)
    {
      var previousState := InitialStack;
      it := 0;
      while it < |doc.blocks| && it != e
        invariant 0 <= it <= e && Coherent(doc.blocks, it)
        invariant previousState == RestoredStack(doc.blocks, it - 1)
        decreases e - it
      {
        var blockData := LoadBlockData(doc.blocks, it);
        if blockData.None? { break; }
        if blockData.value.blockRevision != doc.blocks[it].revision { break; }
        if previousState != blockData.value.beginState { break; }
        if LexerStateOf(doc.blocks, it) == -1 { break; }
        previousState := blockData.value.endState;
        it := it + 1;
      }
      FirstStaleUnique(doc.blocks, e, 0, it);
    }

    /** The second loop of `updateStateUntil(e)`: recompute the blocks from `k` up to `e - 1`, in order. */
    method RecalculateRange(doc: TextDocument, k: int, e: int)
      requires Valid() && doc.Valid() && 0 <= k <= e < |doc.blocks|
      requires WellFormed(RestoredStack(doc.blocks, k - 1)) && StartLexerState(doc.blocks, k) != -1
      modifies this`beginState, this`currentState, this`newStates, this`tokens, this`currentLine,
        this`currentToken, this`tokenIndex, this`indentDepth, doc
      ensures doc.Valid()
      ensures doc.blocks == RecalcRange(old(doc.blocks), k, e, tabSize, indentSize, tokenize)
    {
      ghost var target := RecalcRange(doc.blocks, k, e, tabSize, indentSize, tokenize);
      var it := k;
      while it < |doc.blocks| && it != e
        invariant RangePending(doc.blocks, it, e, tabSize, indentSize, tokenize, target)
        decreases e - it
      {
        RecalculateNext(doc, it, e, target);
        it := it + 1;
      }
    }

    /** One iteration of the second loop of `updateStateUntil`: recompute block `it`. */
    method RecalculateNext(doc: TextDocument, it: int, e: int, ghost target: seq<Block>)
      requires Valid() && it < e && RangePending(doc.blocks, it, e, tabSize, indentSize, tokenize, target)
      modifies this`beginState, this`currentState, this`newStates, this`tokens, this`currentLine,
        this`currentToken, this`tokenIndex, this`indentDepth, doc
      ensures RangePending(doc.blocks, it + 1, e, tabSize, indentSize, tokenize, target)
    {
      RecalcReady(doc.blocks, it, tabSize, indentSize, tokenize);
      RecalculateStateAfter(doc, it);
    }

    /** `updateStateUntil(e)`: bring the cache up to date for every line before `e`. */
    method UpdateStateUntil(doc: TextDocument, e: int)
      requires Valid() && doc.Valid() && 0 <= e < |doc.blocks|
      modifies this`beginState, this`currentState, this`newStates, this`tokens, this`currentLine,
        this`currentToken, this`tokenIndex, this`indentDepth, doc
      ensures doc.Valid()
      ensures doc.blocks == UpdatedUntil(old(doc.blocks), e, tabSize, indentSize, tokenize)
      ensures Coherent(doc.blocks, e)
    {
      UpdatedUntilCoherent(doc.blocks, e, tabSize, indentSize, tokenize);
      var it := FindFirstStale(doc, e);
      if it == e {
        return;
      }
      PassingChainWellFormed(doc.blocks, it);
      assert it > 0 ==> Passes(doc.blocks, it - 1);
      RecalculateRange(doc, it, e);
      doc.blocks := doc.blocks[e := WithBlockData(doc.blocks[e], DefaultBlockData)];
    }

    /** `updateLineStateChange(i)`: recompute line `i` if its cache entry is out of date, invalidating the next line. */
    method UpdateLineStateChange(doc: TextDocument, i: int)
      requires Valid() && doc.Valid() && CanRecalcLine(doc.blocks, i)
      modifies this`beginState, this`currentState, this`newStates, this`tokens, this`currentLine,
        this`currentToken, this`tokenIndex, this`indentDepth, doc
      ensures doc.Valid()
      ensures doc.blocks == LineStateChanged(old(doc.blocks), i, tabSize, indentSize, tokenize)
    {
      if !(0 <= i < |doc.blocks|) {
        return;
      }
      var blockData := LoadBlockData(doc.blocks, i);
      if blockData.Some? && blockData.value.blockRevision == doc.blocks[i].revision {
        return;
      }
      RecalculateStateAfter(doc, i);
      if i + 1 >= |doc.blocks| {
        return;
      }
      doc.blocks := doc.blocks[i + 1 := WithBlockData(doc.blocks[i + 1], DefaultBlockData)];
    }

    /** `invalidateCache`: give every block of the document the default entry. */
    method InvalidateCache(doc: TextDocument?)
      requires doc != null ==> doc.Valid()
      modifies doc
      ensures doc != null ==> doc.Valid() && doc.blocks == Invalidated(old(doc.blocks))
    {
      if doc == null {
        return;
      }
      var it := 0;
      ghost var b0 := doc.blocks;
      while it < |doc.blocks|
        invariant 0 <= it <= |doc.blocks| == |b0| && doc.Valid()
        invariant forall j :: 0 <= j < it ==> doc.blocks[j] == WithBlockData(b0[j], DefaultBlockData)
        invariant forall j :: it <= j < |b0| ==> doc.blocks[j] == b0[j]
      {
        doc.blocks := doc.blocks[it := WithBlockData(doc.blocks[it], DefaultBlockData)];
        it := it + 1;
      }
    }
  }
}
