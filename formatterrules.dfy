/**
 * The rules of the DSL code formatter (dslcodeformatter.cpp) stated on values: the
 * column of a text position, what `onEnter` and `adjustIndent` compute, the effect of
 * one token on the state stack, and the replay of a whole line.  The methods of
 * CodeFormatter.Formatter are proved against these functions.
 */
module FormatterRules {
  import opened Wrappers
  import opened TextUtil
  import opened FormatterTypes

  // ---------------------------------------------------------------- columns

  /** Elementary facts about multiples of a positive number. */
  lemma MultipleAtLeast(d: int, t: int)
    requires d >= 1 && t > 0
    ensures d * t >= t
  {
  }

  lemma MultipleMod(k: int, t: int)
    requires t > 0
    ensures (k * t) % t == 0
  {
    var x := k * t;
    var q, m := x / t, x % t;
    assert x == q * t + m;
    var d := k - q;
    assert d * t == k * t - q * t;
    assert d * t == m;
    if d > 0 {
      MultipleAtLeast(d, t);
    } else if d < 0 {
      MultipleAtLeast(-d, t);
    }
  }

  /** The column a tab at column `c` advances to: the next multiple of the tab size. */
  function NextTabStop(c: int, tabSize: int): (r: int)
    requires tabSize > 0
    ensures c < r <= c + tabSize
    ensures r % tabSize == 0
  {
    var q := c / tabSize;
    assert c == q * tabSize + c % tabSize;
    assert (q + 1) * tabSize == q * tabSize + tabSize;
    MultipleMod(q + 1, tabSize);
    (c / tabSize + 1) * tabSize
  }

  /** The visual column reached after the characters of `s`, a tab advancing to the next tab stop. */
  function PrefixColumn(s: string, tabSize: int): (col: int)
    requires tabSize > 0
    ensures col >= |s|
    ensures (forall i :: 0 <= i < |s| ==> s[i] != '\t') ==> col == |s|
    ensures s != [] && s[|s| - 1] == '\t' ==> col % tabSize == 0
    decreases |s|
  {
    if s == [] then 0
    else
      var c := PrefixColumn(s[..|s| - 1], tabSize);
      if s[|s| - 1] == '\t' then NextTabStop(c, tabSize) else c + 1
  }

  /** `column(index)`: the column of position `index` of `line`, the index clamped to the line. */
  function ColumnOf(line: string, index: int, tabSize: int): (col: int)
    requires tabSize > 0
    ensures index <= 0 ==> col == 0
    ensures col >= if index > |line| then |line| else index
    ensures index >= |line| ==> col == PrefixColumn(line, tabSize)
  {
    var n := if index > |line| then |line| else if index < 0 then 0 else index;
    assert line[..|line|] == line;
    PrefixColumn(line[..n], tabSize)
  }

  /** The last character decides the last step: a tab goes to the next tab stop, anything else one column on. */
  lemma PrefixColumnLast(s: string, tabSize: int)
    requires tabSize > 0 && s != []
    ensures PrefixColumn(s, tabSize) ==
      if s[|s| - 1] == '\t' then NextTabStop(PrefixColumn(s[..|s| - 1], tabSize), tabSize)
      else PrefixColumn(s[..|s| - 1], tabSize) + 1
  {
  }

  /** Text without tabs after a prefix adds one column per character. */
  lemma {:induction false} PrefixColumnPlain(a: string, b: string, tabSize: int)
    requires tabSize > 0 && forall i :: 0 <= i < |b| ==> b[i] != '\t'
    ensures PrefixColumn(a + b, tabSize) == PrefixColumn(a, tabSize) + |b|
    decreases |b|
  {
    if b == [] {
      assert a + b == a;
    } else {
      var b' := b[..|b| - 1];
      assert (a + b)[..|a + b| - 1] == a + b';
      PrefixColumnPlain(a, b', tabSize);
    }
  }

  /** What comes before a tab no longer matters once the column is a multiple of the tab size. */
  lemma {:induction false} PrefixColumnAfterTab(a: string, b: string, tabSize: int)
    requires tabSize > 0 && a != [] && a[|a| - 1] == '\t'
    ensures PrefixColumn(a + b, tabSize) == PrefixColumn(a, tabSize) + PrefixColumn(b, tabSize)
    decreases |b|
  {
    if b == [] {
      assert a + b == a;
    } else {
      var b' := b[..|b| - 1];
      assert (a + b)[..|a + b| - 1] == a + b';
      PrefixColumnAfterTab(a, b', tabSize);
      if b[|b| - 1] == '\t' {
        NextTabStopShift(PrefixColumn(a, tabSize), PrefixColumn(b', tabSize), tabSize);
      }
    }
  }

  /** The quotient is determined by any decomposition with a remainder in range. */
  lemma DivUnique(x: int, t: int, k: int, m: int)
    requires t > 0 && x == k * t + m && 0 <= m < t
    ensures x / t == k
  {
    var k', m' := x / t, x % t;
    assert x == k' * t + m';
    var d := k - k';
    assert d * t == k * t - k' * t;
    assert d * t == m' - m;
    if d > 0 {
      MultipleAtLeast(d, t);
    } else if d < 0 {
      MultipleAtLeast(-d, t);
    }
  }

  /** A tab stop moved by a multiple of the tab size moves by the same amount. */
  lemma NextTabStopShift(c: int, d: int, t: int)
    requires t > 0 && c % t == 0
    ensures NextTabStop(c + d, t) == c + NextTabStop(d, t)
  {
    var q, m, r := c / t, d / t, d % t;
    assert c == q * t;
    assert d == m * t + r;
    assert c + d == (q + m) * t + r;
    DivUnique(c + d, t, q + m, r);
    assert (q + m + 1) * t == q * t + (m + 1) * t;
  }

  /** Columns only grow along a line. */
  lemma {:induction false} PrefixColumnMonotone(s: string, n: nat, tabSize: int)
    requires tabSize > 0 && n <= |s|
    ensures PrefixColumn(s[..n], tabSize) <= PrefixColumn(s, tabSize)
    decreases |s| - n
  {
    if n < |s| {
      var t := s[..|s| - 1];
      assert s[..n] == t[..n];
      PrefixColumnMonotone(t, n, tabSize);
      PrefixColumnGrows(s, tabSize);
    } else {
      assert s[..n] == s;
    }
  }

  /** Each character moves the column forward. */
  lemma PrefixColumnGrows(s: string, tabSize: int)
    requires tabSize > 0 && s != []
    ensures PrefixColumn(s[..|s| - 1], tabSize) < PrefixColumn(s, tabSize)
  {
  }

  // ---------------------------------------------------------------- one line

  /** What the formatter knows about the line it is working on. */
  datatype LineCtx = LineCtx(line: string, tokens: seq<Token>, tabSize: int, indentSize: int)

  /** The part of the formatter's state that the tokens of a line change. */
  datatype FState = FState(stack: Stack, newStates: Stack, indent: int)

  /** The result of looking at one token: the new state and whether the token was consumed. */
  datatype Outcome = Outcome(next: FState, consumed: bool)

  /**
   * The indent depth `onEnter` sets for `expression_maybe_continuation`: walking down
   * from frame `i` below the top, the saved depth of the frame above the first
   * expression-ending, non-braceless frame; the current depth when the topmost frame
   * comes first.
   */
  function MaybeContinuationIndent(stack: Stack, i: nat, indent: int): (r: int)
    requires WellFormed(stack) && 1 <= i < |stack|
    ensures r == indent || exists j :: 0 <= j < |stack| && r == stack[j].savedIndentDepth
    decreases |stack| - i
  {
    var t := StateAt(stack, i).stateType;
    if t == TopmostIntro || i + 1 == |stack| then indent
    else if IsExpressionEndState(t) && !IsBracelessState(t) then StateAt(stack, i - 1).savedIndentDepth
    else MaybeContinuationIndent(stack, i + 1, indent)
  }

  /**
   * `QtStyleCodeFormatter::onEnter`: the new indent depth and saved depth when the
   * state `newState` is entered at token `idx`, from the current indent depth `indent`
   * and saved depth `saved`.
   */
  function OnEnterRule(c: LineCtx, stack: Stack, idx: int, newState: StateType, indent: int, saved: int): (r: (int, int))
    requires c.tabSize > 0
    requires newState == ExpressionMaybeContinuation ==> WellFormed(stack) && |stack| >= 2
  {
    var pos := ColumnOf(c.line, TokenAt(c.tokens, idx).start, c.tabSize);
    var view := EnterView(StateAt(stack, 0), StateAt(stack, 1), pos,
                          if newState == FunctionStart then ColumnOf(c.line, TokenAt(c.tokens, 0).start, c.tabSize) else pos,
                          idx == 0, idx == |c.tokens| - 1, c.indentSize,
                          if newState == ExpressionMaybeContinuation then MaybeContinuationIndent(stack, 1, indent) else indent);
    EnterDepths(view, newState, indent, saved)
  }

  /**
   * What `onEnter` reads: the top frame and the one below it, the column of the current
   * token and (for a function start) of the line's first token, whether the current
   * token is the first or the last of the line, the indent size, and (for a possible
   * continuation) the depth the walk down the stack finds.
   */
  datatype EnterView = EnterView(top: State, below: State, pos: int, firstPos: int,
                                 first: bool, last: bool, step: int, continuation: int)

  /** The case analysis of `onEnter` over the values it reads. */
  function EnterDepths(v: EnterView, newState: StateType, indent: int, saved: int): (r: (int, int))
  {
    var parent := v.top.stateType;
    var pos := v.pos;
    var step := v.step;
    if newState == ObjectdefinitionOpen then
      var s1 := if parent == BindingAssignment then v.below.savedIndentDepth else saved;
      var s2 := if v.first then pos else s1;
      (s2 + step, s2)
    else if newState == BindingOrObjectdefinition then if v.first then (pos, pos) else (indent, saved)
    else if newState == ExpressionOrObjectdefinition then (pos, saved)
    else if newState == ExpressionOrLabel then (if indent == pos then indent + 2 * step else pos, saved)
    else if newState == Expression then
      if indent == pos then
        if parent != ExpressionOrObjectdefinition && parent != ExpressionOrLabel
           && parent != BindingAssignment
        then (indent + 2 * step, saved)
        else (indent, saved)
      else if parent != ExpressionOrObjectdefinition && parent != ExpressionOrLabel then (pos, saved)
      else (indent, saved)
    else if newState == ExpressionMaybeContinuation then (v.continuation, saved)
    else if newState == FunctionStart then (v.firstPos, v.firstPos)
    else if newState == SignalArglistOpen || newState == FunctionArglistOpen || newState == ParenOpen then
      (if v.last && parent != ParenOpen then indent + step else pos + 1, saved)
    else if newState == JsblockOpen || newState == ObjectliteralOpen then
      if parent == Expression || parent == ObjectliteralAssignment then
        var base := if v.below.stateType == ExpressionOrLabel then v.below.savedIndentDepth
                    else v.top.savedIndentDepth;
        (base + step, base)
      else (indent + step, saved)
    else if newState == MultilineComment then (pos, saved)
    else (indent, saved)
  }

  /**
   * `enter`: the frame pushed records the NEW indent depth (truncated to 16 bits), and
   * it is pushed onto both the state stack and the stack of states entered on this line.
   */
  function EnterF(c: LineCtx, fs: FState, idx: int, newState: StateType): (r: FState)
    requires c.tabSize > 0
    requires newState == ExpressionMaybeContinuation ==> WellFormed(fs.stack) && |fs.stack| >= 2
    ensures |r.stack| == |fs.stack| + 1 && r.stack[..|fs.stack|] == fs.stack
    ensures r.stack[|fs.stack|] == State(newState, ToU16(r.indent))
    ensures r.newStates == fs.newStates + [r.stack[|fs.stack|]]
    ensures WellFormed(fs.stack) && newState != TopmostIntro ==> WellFormed(r.stack)
    ensures |fs.stack| > 0 && newState == Expression && StateAt(fs.stack, 0).stateType != Expression ==>
      Measure(r) < Measure(fs)
  {
    var (ind, _) := OnEnterRule(c, fs.stack, idx, newState, fs.indent, fs.indent);
    var s := State(newState, ToU16(ind));
    FState(fs.stack + [s], fs.newStates + [s], ind)
  }

  /**
   * `leave`: unless the top is the topmost frame, pop it (and the last state entered
   * on this line, if any) and take the saved depth of the frame below as indent.
   * The stack is required to hold two frames, as the assertion in `leave` demands.
   */
  function LeaveF(fs: FState): (r: FState)
    requires |fs.stack| > 1
    ensures StateAt(fs.stack, 0).stateType == TopmostIntro ==> r == fs
    ensures StateAt(fs.stack, 0).stateType != TopmostIntro ==>
      r.stack == fs.stack[..|fs.stack| - 1] && r.indent == StateAt(r.stack, 0).savedIndentDepth
      && r.newStates == (if fs.newStates == [] then [] else fs.newStates[..|fs.newStates| - 1])
    ensures WellFormed(fs.stack) ==> WellFormed(r.stack)
    ensures StateAt(fs.stack, 0).stateType !in {TopmostIntro, Expression} ==> Measure(r) < Measure(fs)
  {
    if StateAt(fs.stack, 0).stateType == TopmostIntro then fs
    else
      var st := fs.stack[..|fs.stack| - 1];
      var ns := if |fs.newStates| > 0 then fs.newStates[..|fs.newStates| - 1] else fs.newStates;
      FState(st, ns, st[|st| - 1].savedIndentDepth)
  }

  /** Leaving a state just entered gives back the stacks, and the indent saved in the frame below. */
  lemma LeaveUndoesEnter(c: LineCtx, fs: FState, idx: int, newState: StateType)
    requires c.tabSize > 0 && |fs.stack| > 0 && newState != TopmostIntro
    requires newState != ExpressionMaybeContinuation
    ensures LeaveF(EnterF(c, fs, idx, newState)).stack == fs.stack
    ensures LeaveF(EnterF(c, fs, idx, newState)).newStates == fs.newStates
    ensures LeaveF(EnterF(c, fs, idx, newState)).indent == StateAt(fs.stack, 0).savedIndentDepth
  {
    var e := EnterF(c, fs, idx, newState);
    assert e.newStates[..|e.newStates| - 1] == fs.newStates;
  }

  /** `turnInto`: leave, then enter. */
  function TurnIntoF(c: LineCtx, fs: FState, idx: int, newState: StateType): (r: FState)
    requires c.tabSize > 0 && |fs.stack| > 1 && newState != ExpressionMaybeContinuation
    ensures WellFormed(fs.stack) && newState != TopmostIntro ==> WellFormed(r.stack)
  {
    EnterF(c, LeaveF(fs), idx, newState)
  }

  /** The termination measure of the token loop: a token that is not consumed lowers it. */
  function Measure(fs: FState): nat
    requires |fs.stack| > 0
  {
    2 * |fs.stack| + if StateAt(fs.stack, 0).stateType == Expression then 0 else 3
  }

  /** What one token does to the state stack. */
  datatype Action = Keep | Push(state: StateType) | Pop | Replace(state: StateType)

  /** The action for a token, and whether the loop moves on to the next token. */
  datatype Move = Move(action: Action, consumed: bool)

  /**
   * The transition table of the token loop of `recalculateStateAfter`: the action for a
   * token of type `kind` when the top of the stack is `top`.  `commentAtStart` says
   * whether the line's text starts with the end of a comment.  A token the loop does
   * not consume always ends the top state or enters an expression from a state that is
   * not one, which is what makes the loop end.
   */
  function Transition(top: StateType, kind: TokenKind, commentAtStart: bool): (m: Move)
    ensures m.action.Push? ==> m.action.state != TopmostIntro && m.action.state != ExpressionMaybeContinuation
    ensures m.action.Replace? ==>
      m.action.state != TopmostIntro && m.action.state != ExpressionMaybeContinuation && top != TopmostIntro
    ensures m.action.Pop? ==> top != TopmostIntro
    ensures !m.consumed ==> top != Expression && (m.action == Pop || m.action == Push(Expression))
  {
    if kind == MultiLineComment && top != MultilineComment then
      Move(if commentAtStart then Push(MultilineComment) else Keep, true)
    else
      if top == TopmostIntro then Move(if kind == LeftBrace then Push(ObjectdefinitionOpen) else Keep, true)
      else if top == ObjectdefinitionOpen then
        var a := if kind == Colon then Push(BindingAssignment)
          else if kind == LeftBrace then Push(ObjectdefinitionOpen)
          else if kind == RightBrace then Pop
          else if kind == LeftParen then Push(ParenOpen)
          else Keep;
        Move(a, true)
      else if top == BindingAssignment then
        Move(if kind == Semi then Pop else if kind == LeftBrace then Push(ObjectdefinitionOpen) else Keep, true)
      else if top == SignalStart then Move(Push(if kind == Colon then BindingAssignment else SignalMaybeArglist), true)
      else if top == SignalMaybeArglist then
        if kind == LeftParen then Move(Replace(SignalArglistOpen), true) else Move(Pop, false)
      else if top == SignalArglistOpen then Move(if kind == RightParen then Pop else Keep, true)
      else if top == ExpressionOrObjectdefinition then
        if kind == Dot || kind == Identifier then Move(Keep, true)
        else if kind == LeftBrace then Move(Replace(ObjectdefinitionOpen), true)
        else if kind == RightBracket || kind == RightParen then Move(Pop, false)
        else if kind == RightBrace then Move(Pop, true)
        else Move(Push(Expression), false)
      else if top == ExpressionOrLabel then
        if kind == RightBracket || kind == RightParen then Move(Pop, false) else Move(Push(Expression), false)
      else if top == Expression then Move(if kind == RightBrace || kind == Semi then Pop else Keep, true)
      else if top == ExpressionContinuation || top == ExpressionMaybeContinuation then Move(Pop, false)
      else if top == ParenOpen then
        Move(if kind == LeftParen then Push(ParenOpen) else if kind == RightParen then Pop else Keep, true)
      else if top == ObjectliteralOpen then
        if kind == LeftParen then Move(Push(ParenOpen), true)
        else if kind == LeftBrace then Move(Push(ObjectliteralOpen), true)
        else if kind == Colon then Move(Push(ObjectliteralAssignment), true)
        else if kind == RightBracket || kind == RightParen then Move(Pop, false)
        else if kind == RightBrace then Move(Pop, true)
        else Move(Keep, true)
      else if top == ObjectliteralAssignment then
        if kind == LeftParen then Move(Push(ParenOpen), true)
        else if kind == LeftBrace then Move(Push(ObjectliteralOpen), true)
        else if kind == RightBracket || kind == RightParen || kind == RightBrace then Move(Pop, false)
        else if kind == Comma then Move(Pop, true)
        else Move(Keep, true)
      else if top == MultilineComment then
        if kind == MultiLineComment then Move(Keep, true) else Move(Pop, false)
      else Move(Keep, true)
  }

  /** An action carried out with `enter`, `leave` and `turnInto`. */
  function Apply(c: LineCtx, fs: FState, idx: int, a: Action): (r: FState)
    requires c.tabSize > 0 && WellFormed(fs.stack)
    requires a.Push? ==> a.state != TopmostIntro && a.state != ExpressionMaybeContinuation
    requires a.Replace? ==>
      a.state != TopmostIntro && a.state != ExpressionMaybeContinuation && StateAt(fs.stack, 0).stateType != TopmostIntro
    requires a.Pop? ==> StateAt(fs.stack, 0).stateType != TopmostIntro
    ensures WellFormed(r.stack)
  {
    match a
    case Keep => fs
    case Push(t) => EnterF(c, fs, idx, t)
    case Pop => LeaveF(fs)
    case Replace(t) => TurnIntoF(c, fs, idx, t)
  }

  /**
   * One pass of the token loop of `recalculateStateAfter` over token `idx`.  Every
   * stack it produces is well formed, `leave` is only called on stacks of two frames
   * or more, and a token it does not consume lowers the measure, so the loop ends.
   */
  function Step(c: LineCtx, fs: FState, idx: nat): (r: Outcome)
    requires c.tabSize > 0 && WellFormed(fs.stack) && idx < |c.tokens|
    ensures WellFormed(r.next.stack)
    ensures !r.consumed ==> Measure(r.next) < Measure(fs)
  {
    var m := Transition(StateAt(fs.stack, 0).stateType, c.tokens[idx].kind, IndexOf(c.line, "*/") == 0);
    Outcome(Apply(c, fs, idx, m.action), m.consumed)
  }

  /** The token loop of `recalculateStateAfter` from token `idx` to the end of the line. */
  function RunLine(c: LineCtx, fs: FState, idx: nat): (r: FState)
    requires c.tabSize > 0 && WellFormed(fs.stack) && idx <= |c.tokens|
    ensures WellFormed(r.stack)
    decreases |c.tokens| - idx, Measure(fs)
  {
    if idx == |c.tokens| then fs
    else
      var o := Step(c, fs, idx);
      RunLine(c, o.next, if o.consumed then idx + 1 else idx)
  }

  /** One pass of the loop followed by the rest of the line is the rest of the line. */
  lemma RunLineUnfold(c: LineCtx, fs: FState, idx: nat)
    requires c.tabSize > 0 && WellFormed(fs.stack) && idx < |c.tokens|
    ensures var o := Step(c, fs, idx);
      RunLine(c, fs, idx) == RunLine(c, o.next, if o.consumed then idx + 1 else idx)
  {
  }

  // ---------------------------------------------------------------- object nesting

  /** A stack of `k` object definitions over the topmost frame. */
  predicate ObjectNesting(stack: Stack, k: nat) {
    |stack| == k + 1 && stack[0].stateType == TopmostIntro
    && forall j :: 1 <= j < |stack| ==> stack[j].stateType == ObjectdefinitionOpen
  }

  /** Tokens that, inside object definitions, only braces among them change the nesting. */
  predicate ObjectLevelToken(kind: TokenKind) {
    kind != Colon && kind != LeftParen && kind != MultiLineComment
  }

  /** Object nesting after tokens `idx..`: `{` opens, `}` closes unless at the top level. */
  function NestingAfter(k: nat, tokens: seq<Token>, idx: nat): nat
    decreases |tokens| - idx
  {
    if idx >= |tokens| then k
    else
      var kind := tokens[idx].kind;
      var k' := if kind == LeftBrace then k + 1 else if kind == RightBrace && k > 0 then k - 1 else k;
      NestingAfter(k', tokens, idx + 1)
  }

  /** One object-level token: consumed, and the nesting moves by at most one level. */
  lemma ObjectLevelStep(c: LineCtx, fs: FState, idx: nat, k: nat)
    requires c.tabSize > 0 && idx < |c.tokens| && ObjectNesting(fs.stack, k)
    requires ObjectLevelToken(c.tokens[idx].kind)
    ensures Step(c, fs, idx).consumed
    ensures ObjectNesting(Step(c, fs, idx).next.stack, NestingAfter(k, c.tokens[idx..idx + 1], 0))
  {
    var kind := c.tokens[idx].kind;
    var o := Step(c, fs, idx);
    if k == 0 {
      assert StateAt(fs.stack, 0).stateType == TopmostIntro;
      if kind == LeftBrace {
        assert o.next == EnterF(c, fs, idx, ObjectdefinitionOpen);
      } else {
        assert o.next == fs;
      }
    } else {
      assert StateAt(fs.stack, 0).stateType == ObjectdefinitionOpen;
      if kind == LeftBrace {
        assert o.next == EnterF(c, fs, idx, ObjectdefinitionOpen);
      } else if kind == RightBrace {
        assert o.next == LeaveF(fs);
      } else {
        assert o.next == fs;
      }
    }
  }

  /** In an object definition a `:` enters a binding and a `(` a parenthesis, each with one frame pushed. */
  lemma ObjectdefinitionColonParen(c: LineCtx, fs: FState, idx: nat)
    requires c.tabSize > 0 && WellFormed(fs.stack) && idx < |c.tokens|
    requires StateAt(fs.stack, 0).stateType == ObjectdefinitionOpen
    requires c.tokens[idx].kind == Colon || c.tokens[idx].kind == LeftParen
    ensures var o := Step(c, fs, idx);
      var t := if c.tokens[idx].kind == Colon then BindingAssignment else ParenOpen;
      o.consumed && o.next == EnterF(c, fs, idx, t)
      && o.next.stack == fs.stack + [State(t, ToU16(o.next.indent))]
  {
  }

  /**
   * Inside parentheses a `(` opens another level and a `)` closes the innermost one;
   * every other token except a comment leaves the formatter's state as it is.
   */
  lemma ParenOpenStep(c: LineCtx, fs: FState, idx: nat)
    requires c.tabSize > 0 && WellFormed(fs.stack) && idx < |c.tokens|
    requires StateAt(fs.stack, 0).stateType == ParenOpen
    ensures Step(c, fs, idx).consumed
    ensures var o := Step(c, fs, idx);
      c.tokens[idx].kind == LeftParen ==> o.next.stack == fs.stack + [State(ParenOpen, ToU16(o.next.indent))]
    ensures var o := Step(c, fs, idx);
      c.tokens[idx].kind == RightParen ==>
        o.next.stack == fs.stack[..|fs.stack| - 1] && o.next.indent == StateAt(o.next.stack, 0).savedIndentDepth
    ensures var k := c.tokens[idx].kind;
      k != LeftParen && k != RightParen && k != MultiLineComment ==> Step(c, fs, idx).next == fs
  {
  }

  /**
   * On a line made of braces and other object-level tokens, the formatter's stack is a
   * stack of object definitions whose height follows the braces.
   */
  lemma {:induction false} ObjectNestingFollowsBraces(c: LineCtx, fs: FState, idx: nat, k: nat)
    requires c.tabSize > 0 && idx <= |c.tokens| && ObjectNesting(fs.stack, k)
    requires forall j :: idx <= j < |c.tokens| ==> ObjectLevelToken(c.tokens[j].kind)
    ensures ObjectNesting(RunLine(c, fs, idx).stack, NestingAfter(k, c.tokens, idx))
    decreases |c.tokens| - idx
  {
    if idx < |c.tokens| {
      ObjectLevelStep(c, fs, idx, k);
      var o := Step(c, fs, idx);
      var k' := NestingAfter(k, c.tokens[idx..idx + 1], 0);
      assert NestingAfter(k, c.tokens, idx) == NestingAfter(k', c.tokens, idx + 1);
      ObjectNestingFollowsBraces(c, o.next, idx + 1, k');
    }
  }

  // ---------------------------------------------------------------- adjustIndent

  /**
   * `QtStyleCodeFormatter::adjustIndent`: inside a multi-line comment a line keeps the
   * column of its first token; a `{` after a binding colon takes the binding's saved
   * depth; a `}` closing an object definition or expression takes the saved depth of the
   * frame below the top; otherwise the depth stays.
   */
  function AdjustIndentRule(line: string, tokens: seq<Token>, stack: Stack, tabSize: int, indent: int): (r: int)
    requires tabSize > 0
    ensures StateAt(stack, 0).stateType == MultilineComment && tokens != [] ==>
      r == ColumnOf(line, tokens[0].start, tabSize)
    ensures !(StateAt(stack, 0).stateType == MultilineComment && tokens != []) ==>
      var kind := TokenAt(tokens, 0).kind;
      var top := StateAt(stack, 0).stateType;
      && (kind == LeftBrace && top == BindingAssignment ==> r == StateAt(stack, 0).savedIndentDepth)
      && (kind == RightBrace && (top == ObjectdefinitionOpen || top == Expression) ==> r == StateAt(stack, 1).savedIndentDepth)
      && ((kind != LeftBrace || top != BindingAssignment) && (kind != RightBrace || (top != ObjectdefinitionOpen && top != Expression))
          ==> r == indent)
    ensures tokens == [] ==> r == indent
  {
    var top := StateAt(stack, 0);
    if top.stateType == MultilineComment && tokens != [] then ColumnOf(line, tokens[0].start, tabSize)
    else
      var kind := TokenAt(tokens, 0).kind;
      if kind == LeftBrace && top.stateType == BindingAssignment then top.savedIndentDepth
      else if kind == RightBrace && (top.stateType == ObjectdefinitionOpen || top.stateType == Expression)
      then StateAt(stack, 1).savedIndentDepth
      else indent
  }

  // ---------------------------------------------------------------- tokenizeBlock

  /**
   * The part of a line that `tokenizeBlock` hands to the tokenizer: the whole line
   * outside a comment, what follows the first closing marker inside one, or nothing
   * when the comment does not close on this line.
   */
  function TokenizedPart(text: string, inComment: bool): (rest: string)
    ensures !inComment ==> rest == text
    ensures inComment && IndexOf(text, "*/") >= 0 ==> rest == text[IndexOf(text, "*/") + 2..]
    ensures inComment && IndexOf(text, "*/") < 0 ==> rest == []
  {
    var idx := IndexOf(text, "*/");
    if !inComment then text else if idx >= 0 then text[idx + 2..] else []
  }

  /**
   * The tokens `tokenizeBlock` produces for `text`: when the line starts inside a
   * multi-line comment, a comment token up to and including the closing marker (or the
   * whole line), then the tokenizer's tokens for the rest, with positions relative to
   * that rest.  `ok` is false when the tokenizer fails; the comment token stays.
   */
  function LineTokens(text: string, inComment: bool, tokenize: string -> Option<seq<Token>>): (r: (seq<Token>, bool))
    ensures inComment ==> |r.0| > 0 && r.0[0].kind == MultiLineComment && r.0[0].start == 0
    ensures inComment && IndexOf(text, "*/") < 0 ==> r == ([Token(0, |text|, MultiLineComment)], true)
    ensures inComment && IndexOf(text, "*/") >= 0 ==> r.0[0] == Token(0, IndexOf(text, "*/") + 2, MultiLineComment)
    ensures !inComment && text == [] ==> r == ([], true)
    ensures var n := if inComment then 1 else 0; var rest := TokenizedPart(text, inComment);
      && |r.0| >= n
      && (rest == [] ==> |r.0| == n && r.1)
      && (rest != [] && tokenize(rest).None? ==> |r.0| == n && !r.1)
      && (rest != [] && tokenize(rest).Some? ==> r.0[n..] == tokenize(rest).value && r.1)
  {
    var idx := IndexOf(text, "*/");
    var head := if !inComment then [] else if idx >= 0 then [Token(0, idx + 2, MultiLineComment)]
                else [Token(0, |text|, MultiLineComment)];
    var rest := TokenizedPart(text, inComment);
    if rest == [] then (head, true)
    else match tokenize(rest)
      case None => (head, false)
      case Some(ts) => (head + ts, true)
  }
}
