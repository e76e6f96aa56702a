/**
 * The value types of the DSL code formatter (dslcodeformatter.hpp): tokens, the
 * formatter's state types, the stack frames it keeps per line, and the data cached
 * on every text block.
 */
module FormatterTypes {

  /** The token types of the DSL tokenizer that the editor components look at, numbered in declaration order. */
  newtype TokenKind = x: int | 0 <= x < 22

  const MultiLineComment: TokenKind := 0
  const LineComment: TokenKind := 1
  const StringLiteral: TokenKind := 2
  const IntLiteral: TokenKind := 3
  const RealLiteral: TokenKind := 4
  const TrueLiteral: TokenKind := 5
  const FalseLiteral: TokenKind := 6
  const LeftParen: TokenKind := 7
  const RightParen: TokenKind := 8
  const LeftBrace: TokenKind := 9
  const RightBrace: TokenKind := 10
  const LeftBracket: TokenKind := 11
  const RightBracket: TokenKind := 12
  const Colon: TokenKind := 13
  const Semi: TokenKind := 14
  const Comma: TokenKind := 15
  const Dot: TokenKind := 16
  const Identifier: TokenKind := 17
  const NewLine: TokenKind := 18
  const WhiteSpace: TokenKind := 19
  const OtherToken: TokenKind := 20
  const InvalidToken: TokenKind := 21

  /** A token location: its start index in the line, its length and its type. */
  datatype Token = Token(start: int, length: int, kind: TokenKind) {
    /** One past the last character of the token. */
    function End(): int { start + length }
  }

  /** The default-constructed token location that `tokenAt` returns out of range. */
  const EmptyToken: Token := Token(0, 0, InvalidToken)

  /** `tokenAt`: the token at `idx`, or the empty token when `idx` is out of range. */
  function TokenAt(tokens: seq<Token>, idx: int): (t: Token)
    ensures 0 <= idx < |tokens| ==> t == tokens[idx]
    ensures !(0 <= idx < |tokens|) ==> t.kind == InvalidToken
  {
    if 0 <= idx < |tokens| then tokens[idx] else EmptyToken
  }

  /** CodeFormatter::StateType: the enumerator values, in declaration order. */
  newtype StateType = x: int | 0 <= x < 30

  const Invalid: StateType := 0
  const TopmostIntro: StateType := 1
  const TopSpenat: StateType := 2
  const MultilineComment: StateType := 3
  const ImportStart: StateType := 4
  const ImportMaybeDotOrVersionOrAs: StateType := 5
  const ImportDot: StateType := 6
  const ImportMaybeAs: StateType := 7
  const ImportAs: StateType := 8
  const AttributeStart: StateType := 9
  const AttributeName: StateType := 10
  const AttributeMaybeInitializer: StateType := 11
  const SignalStart: StateType := 12
  const SignalMaybeArglist: StateType := 13
  const SignalArglistOpen: StateType := 14
  const FunctionStart: StateType := 15
  const FunctionArglistOpen: StateType := 16
  const FunctionArglistClosed: StateType := 17
  const BindingOrObjectdefinition: StateType := 18
  const BindingAssignment: StateType := 19
  const ObjectdefinitionOpen: StateType := 20
  const Expression: StateType := 21
  const ExpressionContinuation: StateType := 22
  const ExpressionMaybeContinuation: StateType := 23
  const ExpressionOrObjectdefinition: StateType := 24
  const ExpressionOrLabel: StateType := 25
  const ParenOpen: StateType := 26
  const ObjectliteralOpen: StateType := 27
  const ObjectliteralAssignment: StateType := 28
  const JsblockOpen: StateType := 29

  /** An unsigned 16-bit value, the width of `State::savedIndentDepth`. */
  type U16 = x: int | 0 <= x < 0x1_0000

  /** The conversion of an int to quint16: the value modulo 2^16. */
  function ToU16(x: int): (r: U16)
    ensures (r - x) % 0x1_0000 == 0
    ensures 0 <= x < 0x1_0000 ==> r == x
  {
    x % 0x1_0000
  }

  /** A stack frame: a state type and the indent depth saved with it. */
  datatype State = State(stateType: StateType, savedIndentDepth: U16)

  /** The default-constructed frame that `state()` answers beyond the stack. */
  const DefaultState: State := State(Invalid, 0)

  /** A QStack of frames; the top is the last element. */
  type Stack = seq<State>

  /** `initialState()`: one topmost frame with depth 0. */
  const InitialStack: Stack := [State(TopmostIntro, 0)]

  /** `state(belowTop)`: the frame `belowTop` below the top, or the default frame beyond the stack. */
  function StateAt(stack: Stack, belowTop: nat): (s: State)
    ensures belowTop < |stack| ==> s == stack[|stack| - 1 - belowTop]
    ensures belowTop >= |stack| ==> s.stateType == Invalid
  {
    if belowTop < |stack| then stack[|stack| - 1 - belowTop] else DefaultState
  }

  /**
   * The shape every stack the formatter works on keeps: a topmost frame at the bottom
   * and no other topmost frame above it.
   */
  predicate WellFormed(stack: Stack) {
    |stack| > 0 && stack[0].stateType == TopmostIntro
    && forall j :: 1 <= j < |stack| ==> stack[j].stateType != TopmostIntro
  }

  /** `isBracelessState`. */
  predicate IsBracelessState(t: StateType) {
    t == BindingAssignment || t == BindingOrObjectdefinition
  }

  /** `isExpressionEndState`. */
  predicate IsExpressionEndState(t: StateType) {
    t == TopmostIntro || t == ObjectdefinitionOpen || t == JsblockOpen
    || t == ParenOpen || t == ObjectliteralOpen
  }

  /** CodeFormatter::BlockData: the formatter's cache entry for one text block. */
  datatype BlockData = BlockData(beginState: Stack, endState: Stack, indentDepth: int, blockRevision: int)

  /** A default-constructed BlockData: empty stacks, depth 0, revision -1. */
  const DefaultBlockData: BlockData := BlockData([], [], 0, -1)

  /**
   * The two shapes a cache entry takes: the default entry that marks a block as
   * invalid, or one written after a block was processed, whose stacks are well formed.
   */
  predicate CacheShape(d: BlockData) {
    (d.beginState == [] && d.endState == []) || (WellFormed(d.beginState) && WellFormed(d.endState))
  }
}
