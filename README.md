# appcreator DSL editor and project explorer core, in Dafny

This project models two parts of appcreator.

The first is the DSL editor's text support:
- `DslCodeFormatter`, the indentation engine. It runs a state machine over the tokens of each line, keeps a per-block cache of the state stack, and computes indentation for new lines and for closing braces.
- `DslHighlighter`, which records formats, folding levels and bracket positions per line.
- `DslAutoCompleter`, which decides whether to insert matching brackets and quotes.
- `DslIndenter`, which indents a block on an electric character.

The second is the project explorer's base classes:
- `BaseProjectDocument`, the project file's list of files and file arrays.
- `BaseProjectNode` and its folder tree.
- `BaseProject` and `BaseProjectManager`.
- `BaseError`, with the conversions of DSL parser and QML errors into it.

How the model represents the program's state:
- A text document is a sequence of blocks (lines). Each block carries its text, its revision and the formatter's cached `BlockData` (begin and end state stacks, indent depth, cached revision) and the lexer state stored with it.
- The DSL tokenizer is external code. It is a parameter of type `string -> Option<seq<Token>>`, where `None` stands for a tokenizer error.
- A formatter `State` is a value. Two states are equal exactly when their type and saved indent depth are. The state types are distinct integers, with `invalid` = 0 and `topmost_intro` = 1.
- Objects whose fields the source updates become classes: the text document, the formatter, the highlighter, the project document, the project node, the project, the project manager and `BaseError`. Their methods are proved against specification functions over those fields. An error list holds copies, so its entries are `ErrorRecord` values.
- The project node tree is a sequence of folder nodes addressed by index. Index 0 is the project node, and `NoNode` (-1) plays the role of a null pointer.
- Whether a file exists on disk is a predicate passed in as a parameter. Path cleaning (`QDir::cleanPath`) and `QDir::toNativeSeparators` are functions passed in as parameters.
- Qt's `QMap` iterates in key order. The model visits keys in order by repeatedly taking the least remaining key.

Modules, one per source component:

| module | file | models |
|---|---|---|
| `Wrappers` | wrappers.dfy | `Option` and `Result` |
| `TextUtil` | textutil.dfy | the `QString`/`QStringList` operations the core relies on |
| `FormatterTypes` | formattertypes.dfy | `dslcodeformatter.hpp`: states, tokens, block data |
| `FormatterRules` | formatterrules.dfy | the value-level rules of `dslcodeformatter.cpp`: transitions, `enter`/`leave`/`turnInto`, columns, `onEnter`, `adjustIndent` |
| `CodeFormatter` | codeformatter.dfy | the `DslCodeFormatter` object and its block cache |
| `Highlighter` | highlighter.dfy | `dslhighlighter.cpp` |
| `AutoCompleter` | autocompleter.dfy | `dslautocompleter.cpp` |
| `Indenter` | indenter.dfy | `dslindenter.cpp` |
| `BaseErrors` | baseerror.dfy | `baseerror.hpp`, `baseerror.cpp` |
| `ProjectDocument` | projectdocument.dfy | `baseprojectdocument.cpp` |
| `ProjectNodes` | projectnodes.dfy | `baseprojectnodes.cpp` |
| `BaseProjects` | baseproject.dfy | `baseproject.cpp` |

## Model

| member | source | states |
|---|---|---|
| TextUtil.IndexOf | src/plugins/dsleditor/dslcodeformatter.cpp:566 | QString::indexOf: the first index at which the pattern occurs, or -1; no earlier index matches |
| TextUtil.IndexFrom | src/plugins/dsleditor/dslcodeformatter.cpp:566 | the first occurrence at or after a position, or -1; no earlier position from there matches |
| TextUtil.LeadingSpaces | src/plugins/projectexplorer/baseproject.cpp:265 | the leading white-space run: all spaces, followed by a non-space or the end |
| TextUtil.TrailingStart | src/plugins/projectexplorer/baseproject.cpp:265 | the trailing white-space run: all spaces, preceded by a non-space or the start |
| TextUtil.TrimStart | src/plugins/projectexplorer/baseproject.cpp:265 | the leading white space dropped: a suffix of the input starting with a non-space |
| TextUtil.TrimEnd | src/plugins/projectexplorer/baseproject.cpp:265 | the trailing white space dropped: a prefix of the input ending with a non-space |
| TextUtil.TrimmedEmptyIffBlank | src/plugins/projectexplorer/baseprojectnodes.cpp:237 | `trimmed().isEmpty()` holds exactly when the string is all white space (both directions) |
| TextUtil.TrimmedIdempotent | src/plugins/projectexplorer/baseproject.cpp:240 | trimming twice is trimming once |
| TextUtil.RemoveSpaces | src/plugins/projectexplorer/baseproject.cpp:266 | `replace(" ", "")`: no space is left, no longer than the input, a string without spaces is unchanged; with RemoveSpacesCounts and RemoveSpacesAppend, exactly the spaces removed and the rest in order |
| TextUtil.RemoveSpacesCounts | src/plugins/projectexplorer/baseproject.cpp:266 | every space removed and every other character kept as often as it occurs |
| TextUtil.RemoveSpacesAppend | src/plugins/projectexplorer/baseproject.cpp:266 | removing the spaces of a concatenation removes them part by part, so the other characters keep their order |
| TextUtil.InsertEverywhere | src/plugins/projectexplorer/baseprojectdocument.cpp:425 | Qt's replacement with an empty pattern inserts the replacement at every position: the exact resulting length; InsertEverywhereAt gives every character |
| TextUtil.InsertEverywhereAt | src/plugins/projectexplorer/baseprojectdocument.cpp:425 | the result is cut into pieces of the replacement followed by one character of the input, in order, with the replacement once more at the end |
| TextUtil.ReplaceAllAbsent | src/plugins/projectexplorer/baseprojectdocument.cpp:425 | replacing a pattern that does not occur leaves the text as it is |
| TextUtil.ReplaceAllWhole | src/plugins/projectexplorer/baseprojectdocument.cpp:425 | a text that is exactly the pattern becomes exactly the replacement |
| TextUtil.JoinSnoc | src/plugins/projectexplorer/baseprojectdocument.cpp:523-533 | joining one more part appends the separator and the part |
| TextUtil.RemoveAll | src/plugins/projectexplorer/baseproject.cpp:406 | QList::removeAll: no element equal to x is left, every other element is kept; with RemoveAllCounts and RemoveAllAppend, with its multiplicity and in order |
| TextUtil.RemoveAllCounts | src/plugins/projectexplorer/baseproject.cpp:406 | every copy of x removed and every other element kept as often as it occurs |
| TextUtil.RemoveAllAppend | src/plugins/projectexplorer/baseproject.cpp:406 | removeAll on a concatenation works part by part, so the kept elements keep their order |
| TextUtil.StrLeTotal | src/plugins/projectexplorer/baseprojectdocument.cpp:308 | the key order of QMap is total |
| TextUtil.StrLeReflexive | src/plugins/projectexplorer/baseprojectdocument.cpp:308 | the key order is reflexive |
| TextUtil.StrLeAntisymmetric | src/plugins/projectexplorer/baseprojectdocument.cpp:308 | the key order is antisymmetric |
| TextUtil.StrLeTransitive | src/plugins/projectexplorer/baseprojectdocument.cpp:308 | the key order is transitive |
| TextUtil.LeastExists | src/plugins/projectexplorer/baseprojectdocument.cpp:308 | every non-empty key set has a least key |
| TextUtil.LeastUnique | src/plugins/projectexplorer/baseprojectdocument.cpp:308 | the least key is unique |
| TextUtil.Least | src/plugins/projectexplorer/baseprojectdocument.cpp:308 | the least key of a non-empty key set |
| TextUtil.SortedKeys | src/plugins/projectexplorer/baseprojectdocument.cpp:308 | `keys()`: exactly the keys of the map, one per key; SortedKeysAscending gives the order |
| TextUtil.SortedKeysDistinct | src/plugins/projectexplorer/baseprojectdocument.cpp:308 | QMap::keys lists every key exactly once |
| TextUtil.SortedKeysAscending | src/plugins/projectexplorer/baseprojectdocument.cpp:308 | QMap::keys lists the keys in ascending order |
| TextUtil.LeastOf | src/plugins/projectexplorer/baseprojectdocument.cpp:308 | a pass over the key set returns its least key |
| TextUtil.SortedKeysStep | src/plugins/projectexplorer/baseprojectdocument.cpp:308 | taking the least remaining key moves it from the sorted rest to the end of the keys taken |
| TextUtil.KeysInOrder | src/plugins/projectexplorer/baseprojectdocument.cpp:308 | the keys it returns are exactly the key set in ascending order (the QMap iteration order) |
| FormatterTypes.TokenAt | src/plugins/dsleditor/dslcodeformatter.cpp:475-482 | `tokenAt`: the token at the index, or an invalid token out of range |
| FormatterTypes.ToU16 | src/plugins/dsleditor/dslcodeformatter.hpp:122-127 | the quint16 conversion of a saved depth: congruent modulo 2^16, the identity on values in range |
| FormatterTypes.StateAt | src/plugins/dsleditor/dslcodeformatter.cpp:321-327 | `state(belowTop)`: the frame that far below the top, or an `invalid` frame beyond the stack |
| FormatterRules.NextTabStop | src/plugins/dsleditor/dslcodeformatter.cpp:492-493 | a tab advances the column by 1 to tabSize positions, to a multiple of the tab size |
| FormatterRules.PrefixColumn | src/plugins/dsleditor/dslcodeformatter.cpp:484-499 | the column after a prefix is at least its length, equals it when there is no tab, and is a tab stop after a tab |
| FormatterRules.ColumnOf | src/plugins/dsleditor/dslcodeformatter.cpp:484-499 | `column(index)`: 0 for an index at or before 0, at least the clamped index otherwise, and the column of the whole line for an index at or past its end |
| FormatterRules.PrefixColumnMonotone | src/plugins/dsleditor/dslcodeformatter.cpp:490-496 | columns never decrease along a line |
| FormatterRules.PrefixColumnGrows | src/plugins/dsleditor/dslcodeformatter.cpp:490-496 | every character moves the column forward |
| FormatterRules.PrefixColumnLast | src/plugins/dsleditor/dslcodeformatter.cpp:492-496 | the last character decides the last step: a tab goes to the next tab stop of the column before it, any other character adds one |
| FormatterRules.PrefixColumnPlain | src/plugins/dsleditor/dslcodeformatter.cpp:492-496 | text without tabs after a prefix adds one column per character |
| FormatterRules.PrefixColumnAfterTab | src/plugins/dsleditor/dslcodeformatter.cpp:492-496 | after a tab the columns of the rest are counted as from a line start, shifted by the tab stop reached |
| FormatterRules.NextTabStopShift | src/plugins/dsleditor/dslcodeformatter.cpp:494 | the tab stop after a column moved by a multiple of the tab size moves by the same amount |
| FormatterRules.MaybeContinuationIndent | src/plugins/dsleditor/dslcodeformatter.cpp:689-699 | the continuation depth is the current depth or a depth saved in a stack frame |
| FormatterRules.EnterF | src/plugins/dsleditor/dslcodeformatter.cpp:361-372 | `enter`: exactly one frame (new state, new depth truncated to 16 bits) pushed on both stacks, the stacks below unchanged; well-formedness kept |
| FormatterRules.LeaveF | src/plugins/dsleditor/dslcodeformatter.cpp:374-394 | `leave`: nothing at a topmost frame; otherwise the top frame popped from the stack and the last entry dropped from the states entered on the line, and the depth taken from the new top; well-formedness kept; the loop measure drops |
| FormatterRules.LeaveUndoesEnter | src/plugins/dsleditor/dslcodeformatter.cpp:361-394 | leaving a state just entered restores both stacks, with the depth saved in the frame below |
| FormatterRules.TurnIntoF | src/plugins/dsleditor/dslcodeformatter.cpp:506-510 | `turnInto` keeps the stack well formed |
| FormatterRules.Transition | src/plugins/dsleditor/dslcodeformatter.cpp:76-229 | the transition table never pushes `topmost_intro`, never pops it, and a token it does not consume pops or pushes `expression` |
| FormatterRules.Apply | src/plugins/dsleditor/dslcodeformatter.cpp:361-394 | an action of the table keeps the stack well formed |
| FormatterRules.Step | src/plugins/dsleditor/dslcodeformatter.cpp:65-237 | one pass of the token loop keeps the stack well formed, and a `continue` lowers the measure, so the loop ends |
| FormatterRules.RunLine | src/plugins/dsleditor/dslcodeformatter.cpp:65-238 | the token loop over a whole line keeps the stack well formed |
| FormatterRules.RunLineUnfold | src/plugins/dsleditor/dslcodeformatter.cpp:65-238 | one pass followed by the rest of the line is the rest of the line |
| FormatterRules.ObjectLevelStep | src/plugins/dsleditor/dslcodeformatter.cpp:104-113 | in `objectdefinition_open`, `{` pushes a level, `}` pops one, other object-level tokens keep the stack |
| FormatterRules.ObjectdefinitionColonParen | src/plugins/dsleditor/dslcodeformatter.cpp:104-113 | in `objectdefinition_open`, `:` pushes `binding_assignment` and `(` pushes `paren_open`, each consumed |
| FormatterRules.ParenOpenStep | src/plugins/dsleditor/dslcodeformatter.cpp:191-198 | in `paren_open`, `(` pushes another `paren_open`, `)` pops one and takes the depth of the new top, and any other non-comment token leaves the state unchanged |
| FormatterRules.ObjectNestingFollowsBraces | src/plugins/dsleditor/dslcodeformatter.cpp:104-113 | over a line of object-level tokens the stack is a stack of object definitions whose height follows the braces |
| FormatterRules.AdjustIndentRule | src/plugins/dsleditor/dslcodeformatter.cpp:747-803 | `adjustIndent`: inside a comment the first token's column; otherwise `{` under `binding_assignment` gives the top's depth, `}` under `objectdefinition_open` or `expression` the depth of the frame below, every other case the depth unchanged; no tokens leave it unchanged |
| FormatterRules.TokenizedPart | src/plugins/dsleditor/dslcodeformatter.cpp:564-582 | the text given to the tokenizer: the whole line outside a comment, what follows the first `*/` inside one, nothing when the comment does not close |
| FormatterRules.LineTokens | src/plugins/dsleditor/dslcodeformatter.cpp:564-592 | inside a comment the first token is a comment from 0 to just past the first `*/`, or the whole line without one; after it come exactly the tokenizer's tokens for TokenizedPart, none when that is empty, and the flag is false exactly when the tokenizer fails |
| CodeFormatter.WithBlockData | src/plugins/dsleditor/dslcodeformatter.cpp:817-830 | `saveBlockData`: the entry stored, text and revision kept, an existing lexer state kept, else 0 |
| CodeFormatter.WithLexerState | src/plugins/dsleditor/dslcodeformatter.cpp:846-853 | `saveLexerState`: the state stored, text, revision and formatter entry kept |
| CodeFormatter.TextDocument.constructor | src/plugins/dsleditor/dslcodeformatter.cpp:817-858 | a document of lines with the given texts, revision 0 and no user data |
| CodeFormatter.RestoredStack | src/plugins/dsleditor/dslcodeformatter.cpp:527-550 | `restoreCurrentState`: the cached end stack, or `[(topmost_intro, 0)]` without an entry |
| CodeFormatter.RestoredIndent | src/plugins/dsleditor/dslcodeformatter.cpp:527-542 | the cached indent depth, or 0 without an entry |
| CodeFormatter.RecalcBlock | src/plugins/dsleditor/dslcodeformatter.cpp:53-244 | `recalculateStateAfter`: only line i changes; its entry holds the restored begin stack, the well-formed end stack, the depth and the line's revision |
| CodeFormatter.PassesLocal | src/plugins/dsleditor/dslcodeformatter.cpp:273-286 | whether a line passes the skip-scan depends only on it and its predecessor |
| CodeFormatter.FirstStale | src/plugins/dsleditor/dslcodeformatter.cpp:273-286 | the skip-scan stops at the first line missing data, with another revision, a begin stack unlike the previous end stack, or lexer state -1 |
| CodeFormatter.FirstStaleUnique | src/plugins/dsleditor/dslcodeformatter.cpp:273-286 | any index before which all lines pass and at which one fails is where the scan stops |
| CodeFormatter.PassingChainWellFormed | src/plugins/dsleditor/dslcodeformatter.cpp:273-286 | along passing lines the cached end stacks stay well formed |
| CodeFormatter.RecalcRange | src/plugins/dsleditor/dslcodeformatter.cpp:290-293 | recomputing lines lo..hi-1 changes no other line and no text or revision |
| CodeFormatter.RecalcReady | src/plugins/dsleditor/dslcodeformatter.cpp:290-293 | after line i is recomputed, line i+1 can be: a well-formed predecessor stack and a stored lexer state |
| CodeFormatter.RecalcBlockPasses | src/plugins/dsleditor/dslcodeformatter.cpp:512-525 | a recomputed line passes the skip-scan checks |
| CodeFormatter.RecalcRangePasses | src/plugins/dsleditor/dslcodeformatter.cpp:290-293 | every recomputed line passes the skip-scan checks |
| CodeFormatter.UpdatedUntil | src/plugins/dsleditor/dslcodeformatter.cpp:267-300 | `updateStateUntil(e)`: lines before the first stale one untouched, nothing changed when none is stale, otherwise line e gets the default entry |
| CodeFormatter.UpdatedUntilCoherent | src/plugins/dsleditor/dslcodeformatter.cpp:267-300 | afterwards every line before e passes the cache checks |
| CodeFormatter.UpdatedUntilIdempotent | src/plugins/dsleditor/dslcodeformatter.cpp:267-300 | a second `updateStateUntil(e)` changes nothing |
| CodeFormatter.Invalidated | src/plugins/dsleditor/dslcodeformatter.cpp:349-359 | `invalidateCache`: every line gets the default entry |
| CodeFormatter.InvalidatedRecomputesAll | src/plugins/dsleditor/dslcodeformatter.cpp:273-280 | after invalidation the first line fails the scan, so everything is recomputed |
| CodeFormatter.LineStateChanged | src/plugins/dsleditor/dslcodeformatter.cpp:302-319 | `updateLineStateChange`: nothing for a line outside the document or with a fresh entry |
| CodeFormatter.IndentForBlocks | src/plugins/dsleditor/dslcodeformatter.cpp:396-403 | `indentFor` leaves every text, revision and cache entry as it was |
| CodeFormatter.ClosingBraceAligns | src/plugins/dsleditor/dslcodeformatter.cpp:786-795 | a line opening with `}` in an object definition gets the depth saved in the frame below the top |
| CodeFormatter.Formatter.constructor | src/plugins/dsleditor/dslcodeformatter.cpp:38-42 | tab size 4, indent size 4, depth 0 |
| CodeFormatter.Formatter.FromTabSettings | src/plugins/dsleditor/dslcodeformatter.cpp:808-812 | tab and indent size taken from the tab settings |
| CodeFormatter.Formatter.SetTabSize | src/plugins/dsleditor/dslcodeformatter.cpp:48-51 | the tab size set |
| CodeFormatter.Formatter.SetIndentSize | src/plugins/dsleditor/dslcodeformatter.cpp:621-624 | the indent size set |
| CodeFormatter.Formatter.Column | src/plugins/dsleditor/dslcodeformatter.cpp:484-499 | the loop computes `ColumnOf` of the current line |
| CodeFormatter.Formatter.OnEnter | src/plugins/dsleditor/dslcodeformatter.cpp:626-745 | the out-parameters are the depths the onEnter rule gives |
| CodeFormatter.Formatter.MaybeContinuation | src/plugins/dsleditor/dslcodeformatter.cpp:689-699 | the walk down the stack gives MaybeContinuationIndent |
| CodeFormatter.Formatter.Enter | src/plugins/dsleditor/dslcodeformatter.cpp:361-372 | the new state is EnterF of the old one |
| CodeFormatter.Formatter.Leave | src/plugins/dsleditor/dslcodeformatter.cpp:374-394 | the new state is LeaveF of the old one |
| CodeFormatter.Formatter.TurnInto | src/plugins/dsleditor/dslcodeformatter.cpp:506-510 | the new state is TurnIntoF of the old one |
| CodeFormatter.Formatter.Perform | src/plugins/dsleditor/dslcodeformatter.cpp:90-229 | the action carried out as Apply states |
| CodeFormatter.Formatter.ProcessToken | src/plugins/dsleditor/dslcodeformatter.cpp:65-237 | one pass of the loop is Step, `continue` reported as not consumed |
| CodeFormatter.Formatter.RestoreCurrentState | src/plugins/dsleditor/dslcodeformatter.cpp:527-542 | stack and depth are RestoredStack and RestoredIndent, and the begin stack equals the current one |
| CodeFormatter.Formatter.SaveCurrentState | src/plugins/dsleditor/dslcodeformatter.cpp:512-525 | begin, end, depth and revision cached on the line; nothing for a line outside the document |
| CodeFormatter.Formatter.TokenizeBlock | src/plugins/dsleditor/dslcodeformatter.cpp:552-599 | the tokens are LineTokens of the line; the start lexer state stored unless the tokenizer fails (-1) |
| CodeFormatter.Formatter.ProcessTokens | src/plugins/dsleditor/dslcodeformatter.cpp:65-238 | the loop ends at the last token in the state RunLine gives |
| CodeFormatter.Formatter.NextToken | src/plugins/dsleditor/dslcodeformatter.cpp:65-238 | one iteration keeps the loop's target and advances or lowers the measure |
| CodeFormatter.Formatter.RecalculateStateAfter | src/plugins/dsleditor/dslcodeformatter.cpp:53-244 | the document becomes RecalcBlock of the old one |
| CodeFormatter.Formatter.IndentFor | src/plugins/dsleditor/dslcodeformatter.cpp:246-253 | the depth is the indentFor rule, the cache as IndentForBlocks |
| CodeFormatter.Formatter.IndentForNewLineAfter | src/plugins/dsleditor/dslcodeformatter.cpp:255-265 | the depth cached on the line (0 without an entry) |
| CodeFormatter.Formatter.AdjustIndent | src/plugins/dsleditor/dslcodeformatter.cpp:747-803 | the depth is AdjustIndentRule |
| CodeFormatter.Formatter.FindFirstStale | src/plugins/dsleditor/dslcodeformatter.cpp:273-286 | the first loop stops at FirstStale |
| CodeFormatter.Formatter.RecalculateRange | src/plugins/dsleditor/dslcodeformatter.cpp:290-293 | the second loop gives RecalcRange |
| CodeFormatter.Formatter.RecalculateNext | src/plugins/dsleditor/dslcodeformatter.cpp:290-293 | one step of the second loop keeps its invariant |
| CodeFormatter.Formatter.UpdateStateUntil | src/plugins/dsleditor/dslcodeformatter.cpp:267-300 | the document becomes UpdatedUntil, and every line before e passes the cache checks |
| CodeFormatter.Formatter.UpdateLineStateChange | src/plugins/dsleditor/dslcodeformatter.cpp:302-319 | the document becomes LineStateChanged |
| CodeFormatter.Formatter.InvalidateCache | src/plugins/dsleditor/dslcodeformatter.cpp:349-359 | a null document is left alone; otherwise the document becomes Invalidated |
| Highlighter.Int32 | src/plugins/dsleditor/dslhighlighter.cpp:300 | the shifted depth wraps to a 32-bit int: in range, unchanged on values in range |
| Highlighter.BlockStateRoundTrip | src/plugins/dsleditor/dslhighlighter.cpp:282-300 | for a depth within 24 bits the packed state is never -1 and decodes to the same depth and comment flag |
| Highlighter.BlockStart | src/plugins/dsleditor/dslhighlighter.cpp:267-294 | `onBlockStart`: no parentheses, flags cleared, folding indent equal to the decoded depth |
| Highlighter.NextLineResumes | src/plugins/dsleditor/dslhighlighter.cpp:282-291 | a line starts with exactly the depth, folding indent and comment flag the previous line stored |
| Highlighter.FirstLineStartsClean | src/plugins/dsleditor/dslhighlighter.cpp:282-291 | a previous state -1 gives depth 0 outside a comment |
| Highlighter.Opening | src/plugins/dsleditor/dslhighlighter.cpp:307-322 | `onOpeningParenthesis`: one Opened record; the depth rises by one only for `{`, `[` and `+`; folding start set only for those at the line start |
| Highlighter.Closing | src/plugins/dsleditor/dslhighlighter.cpp:324-339 | `onClosingParenthesis`: one Closed record; the depth falls only for `}`, `]` and `-`; for such a closer not at the line end the folding indent becomes the minimum of the new depth and the old indent; in every other case it stays as it was |
| Highlighter.ClosedCommentSeenAsOpen | src/plugins/dsleditor/dslhighlighter.cpp:179 | the test as written calls the closed comment `/* a */` open |
| Highlighter.ClosedCommentToken | src/plugins/dsleditor/dslhighlighter.cpp:175-186 | with the corrected test a comment token made of `/*`, a body and `*/` does not leave the comment open |
| Highlighter.UnclosedCommentToken | src/plugins/dsleditor/dslhighlighter.cpp:175-186 | with the corrected test a comment token that starts with `/*` and holds no `*/` starting after that opening marker leaves the comment open |
| Highlighter.OverlappingMarkersOpen | src/plugins/dsleditor/dslhighlighter.cpp:175-186 | the three-character token `/*/` ends with `*/`, but its star belongs to the opening marker, so the corrected test calls it open |
| Highlighter.BracketPosInBlock | src/plugins/dsleditor/dslhighlighter.cpp:188-238 | the corrected record position points at the bracket's character in the block |
| Highlighter.BracketPosAsWrittenMisplaced | src/plugins/dsleditor/dslhighlighter.cpp:208-210 | after a comment prefix the position as written points at the wrong character |
| Highlighter.TokenBracketComment | src/plugins/dsleditor/dslhighlighter.cpp:175-186 | only an open comment token opens the `+` marker |
| Highlighter.ExtendsTransitive | src/plugins/dsleditor/dslhighlighter.cpp:319 | appending to the records is transitive |
| Highlighter.TokenStepFacts | src/plugins/dsleditor/dslhighlighter.cpp:132-260 | one token appends one format and at most one record, keeps the depth in step with the records and never raises the folding indent |
| Highlighter.BracketFacts | src/plugins/dsleditor/dslhighlighter.cpp:307-339 | an opening or closing bracket appends at most one record, leaves the formats alone, keeps the depth equal to the net count of the records and never raises the folding indent |
| Highlighter.RunTokensKeepsDepth | src/plugins/dsleditor/dslhighlighter.cpp:132-260 | over the token loop the depth is the start depth plus the net records, and the folding indent never rises |
| Highlighter.RunTokensExtends | src/plugins/dsleditor/dslhighlighter.cpp:132-260 | the loop only appends formats and records, at most one record per token |
| Highlighter.ClosedCommentsKeepFlag | src/plugins/dsleditor/dslhighlighter.cpp:175-186 | a line whose comment tokens are all closed keeps the comment flag |
| Highlighter.PrefixEnd | src/plugins/dsleditor/dslhighlighter.cpp:97-107 | the tokenized text starts inside the line |
| Highlighter.OpenCommentLine | src/plugins/dsleditor/dslhighlighter.cpp:113-119 | a line inside an unclosed comment is one comment format, without records, and keeps the comment open |
| Highlighter.CommentPrefixLine | src/plugins/dsleditor/dslhighlighter.cpp:99-112 | a comment closed at i: the first format covers [0, i+2), the first record closes `-` at i+1, the flag clears |
| Highlighter.HighlightLineDepth | src/plugins/dsleditor/dslhighlighter.cpp:91-265 | across a line the depth moves exactly with the records and the folding indent stays at most the start depth |
| Highlighter.DslHighlighter.constructor | src/plugins/dsleditor/dslhighlighter.cpp:54-60 | depth 0, folding indent 0, outside a comment, no records |
| Highlighter.DslHighlighter.OnBlockStart | src/plugins/dsleditor/dslhighlighter.cpp:267-294 | the fields become BlockStart, and the comment byte is returned |
| Highlighter.DslHighlighter.OnBlockEnd | src/plugins/dsleditor/dslhighlighter.cpp:296-305 | the packed state, the records and the folding indent stored on the block |
| Highlighter.DslHighlighter.OnOpeningParenthesis | src/plugins/dsleditor/dslhighlighter.cpp:307-322 | the fields become Opening |
| Highlighter.DslHighlighter.OnClosingParenthesis | src/plugins/dsleditor/dslhighlighter.cpp:324-339 | the fields become Closing |
| Highlighter.DslHighlighter.SetFormat | src/plugins/dsleditor/dslhighlighter.cpp:140-142 | one format appended |
| Highlighter.DslHighlighter.HighlightToken | src/plugins/dsleditor/dslhighlighter.cpp:137-259 | one token handled as TokenStep |
| Highlighter.DslHighlighter.HighlightTokens | src/plugins/dsleditor/dslhighlighter.cpp:131-260 | the token loop gives RunTokens |
| Highlighter.DslHighlighter.HighlightBlock | src/plugins/dsleditor/dslhighlighter.cpp:91-265 | the block's formats, records and state are those of HighlightLine (corrected, see ## Findings) |
| Highlighter.DslHighlighter.CloseCommentPrefix | src/plugins/dsleditor/dslhighlighter.cpp:101-111 | the comment prefix handled as AfterPrefix, returning where the rest starts |
| AutoCompleter.CharacterAt | src/plugins/dsleditor/dslautocompleter.cpp:114 | the null character outside the document |
| AutoCompleter.BlockStartState | src/plugins/dsleditor/dslautocompleter.cpp:35-43 | 0 for a previous state -1, otherwise the low byte |
| AutoCompleter.BlockStartStateIsCommentFlag | src/plugins/dsleditor/dslautocompleter.cpp:35-43 | on a state the highlighter stored it is 1 exactly inside a comment |
| AutoCompleter.FindToken | src/plugins/dsleditor/dslautocompleter.cpp:72-91 | the first token under the cursor (comments and strings `start < pos <= end`, others `start <= pos < end`), or none, and no earlier token is |
| AutoCompleter.CommentEnd | src/plugins/dsleditor/dslautocompleter.cpp:53-55 | the first `*/`, or the end of the text |
| AutoCompleter.TokenizedFrom | src/plugins/dsleditor/dslautocompleter.cpp:61-62 | the rest of the block starts inside it |
| AutoCompleter.Shift | src/plugins/dsleditor/dslautocompleter.cpp:62 | a token moved by an offset keeps kind and length |
| AutoCompleter.TokenUnderCursorAsWrittenMisplaced | src/plugins/dsleditor/dslautocompleter.cpp:72-91 | the unshifted match reports an identifier at the comment marker |
| AutoCompleter.TokenUnderCursorCovers | src/plugins/dsleditor/dslautocompleter.cpp:72-91 | the corrected token lies under the cursor in block positions, or is invalid |
| AutoCompleter.TokenUnderCursorInComment | src/plugins/dsleditor/dslautocompleter.cpp:51-58 | in the comment prefix the token is the comment from 0 to the marker or the end |
| AutoCompleter.TokenUnderCursor | src/plugins/dsleditor/dslautocompleter.cpp:45-92 | the search loop returns TokenUnderCursorRule (corrected, see ## Findings) |
| AutoCompleter.WhitespaceEnd | src/plugins/dsleditor/dslautocompleter.cpp:124-131 | the white-space run after a position: all spaces, followed by a non-space or the end |
| AutoCompleter.WhitespaceEndUnique | src/plugins/dsleditor/dslautocompleter.cpp:124-131 | that run is determined by its properties |
| AutoCompleter.CountSeparators | src/plugins/dsleditor/dslautocompleter.cpp:122-131 | the separator count is at most the length |
| AutoCompleter.ShouldInsertNewline | src/plugins/dsleditor/dslautocompleter.cpp:117-137 | the counting loop decides as ShouldInsertNewlineRule |
| AutoCompleter.Mid | src/plugins/dsleditor/dslautocompleter.cpp:198 | midRef: the slice when inside the text, never longer than the text |
| AutoCompleter.ContextAllowsAutoParentheses | src/plugins/dsleditor/dslautocompleter.cpp:158-227 | decides as ContextAllowsAutoParenthesesRule |
| AutoCompleter.NoAutoParenthesesForOtherChars | src/plugins/dsleditor/dslautocompleter.cpp:181-186 | false for a character outside quotes, brackets, `;` and the null character |
| AutoCompleter.NoAutoParenthesesInCommentPrefix | src/plugins/dsleditor/dslautocompleter.cpp:192-193 | false inside a comment continued from above |
| AutoCompleter.NoSingleQuoteInString | src/plugins/dsleditor/dslautocompleter.cpp:213-214 | false for `'` inside a string |
| AutoCompleter.AutoParenthesesInCode | src/plugins/dsleditor/dslautocompleter.cpp:195-226 | true outside comments and strings; inside a string only for the quote of a complete literal or another character |
| AutoCompleter.ContextAllowsElectricCharacters | src/plugins/dsleditor/dslautocompleter.cpp:229-241 | decides as ElectricCharactersAllowedRule |
| AutoCompleter.IsInComment | src/plugins/dsleditor/dslautocompleter.cpp:243-250 | decides as IsInCommentRule |
| AutoCompleter.CommentPrefixIsComment | src/plugins/dsleditor/dslautocompleter.cpp:229-250 | in a comment continued from above the cursor is in a comment and electric characters are off |
| AutoCompleter.CodeAllowsElectricCharacters | src/plugins/dsleditor/dslautocompleter.cpp:229-250 | outside comments and strings electric characters are on and the cursor is not in a comment |
| AutoCompleter.InsertMatchingBrace | src/plugins/dsleditor/dslautocompleter.cpp:252-301 | the text and the skip count are MatchingBraceRule |
| AutoCompleter.MatchingBraceShape | src/plugins/dsleditor/dslautocompleter.cpp:252-301 | a partner inserted or one character skipped, never both; nothing for a text other than one character or a disallowed look-ahead |
| AutoCompleter.OpeningBraceInsertsNothing | src/plugins/dsleditor/dslautocompleter.cpp:285-286 | `{` inserts nothing |
| AutoCompleter.InsertedPartnerIsSkipped | src/plugins/dsleditor/dslautocompleter.cpp:267-294 | the inserted partner is skipped over when typed next |
| AutoCompleter.InsertParagraphSeparator | src/plugins/dsleditor/dslautocompleter.cpp:303-315 | returns ParagraphSeparatorRule |
| AutoCompleter.ParagraphSeparatorCases | src/plugins/dsleditor/dslautocompleter.cpp:303-315 | `}\n`, the empty text and `}` each exactly in their case (both directions) |
| AutoCompleter.ClosingBraceAheadStaysAlone | src/plugins/dsleditor/dslautocompleter.cpp:133 | a `}` right after the cursor gives `}` |
| Indenter.FirstNonSpace | src/plugins/dsleditor/dslindenter.cpp:67 | the leading white space of the line: all spaces, followed by a non-space or the end |
| Indenter.IndentBlock | src/plugins/dsleditor/dslindenter.cpp:50-73 | the decision and the cache are IndentBlockRule and IndentBlockCache |
| Indenter.InvalidateCache | src/plugins/dsleditor/dslindenter.cpp:75-79 | every line gets the default entry |
| Indenter.ElectricOnlySuppresses | src/plugins/dsleditor/dslindenter.cpp:57-72 | an electric character never gives another depth than an ordinary character would, and leaves alone every line an ordinary one leaves alone |
| Indenter.TypedClosingBraceAligns | src/plugins/dsleditor/dslindenter.cpp:50-73 | typing `}` at the start of a line in an object definition moves a line at its new-line indent to the depth saved in the frame below the top, and leaves any other line alone |
| Indenter.FirstLineElectric | src/plugins/dsleditor/dslindenter.cpp:64-70 | on the first line only an unindented line is reindented |
| Indenter.IndentForBlocksKeepsCache | src/plugins/dsleditor/dslindenter.cpp:59-60 | storing the line's lexer state keeps the cache coherent up to the line and changes nothing `indentFor` reads |
| Indenter.IndentBlockStable | src/plugins/dsleditor/dslindenter.cpp:50-73 | indenting the line again, on the cache the first call left, takes the same decision and leaves that cache as it is |
| BaseErrors.ErrorRecord.ToString | src/plugins/projectexplorer/baseerror.cpp:80-87 | `toString` is the description |
| BaseErrors.BaseError.constructor | src/plugins/projectexplorer/baseerror.cpp:5-7 | the type is the argument, description and url empty |
| BaseErrors.BaseError.Copy | src/plugins/projectexplorer/baseerror.cpp:9-15 | all five fields copied |
| BaseErrors.BaseError.SetErrorType | src/plugins/projectexplorer/baseerror.cpp:25-30 | the type set, every other field unchanged |
| BaseErrors.BaseError.SetDescription | src/plugins/projectexplorer/baseerror.cpp:37-42 | the description set, every other field unchanged |
| BaseErrors.BaseError.SetUrl | src/plugins/projectexplorer/baseerror.cpp:49-54 | the url set, every other field unchanged |
| BaseErrors.BaseError.SetLine | src/plugins/projectexplorer/baseerror.cpp:61-66 | the line set, every other field unchanged |
| BaseErrors.BaseError.SetColumn | src/plugins/projectexplorer/baseerror.cpp:73-78 | the column set, every other field unchanged |
| BaseErrors.BaseError.ToString | src/plugins/projectexplorer/baseerror.cpp:80-87 | the description |
| BaseErrors.BaseTypeOf | src/plugins/projectexplorer/baseerror.hpp:76-87 | every DSL kind maps into the ErrorType range, never to DuplicateError; an unnamed kind to UnknownError |
| BaseErrors.BaseTypeOfRoundTrip | src/plugins/projectexplorer/baseerror.hpp:76-87 | on the six named kinds the mapping is undone by DslTypeOf |
| BaseErrors.BaseTypeOfInjective | src/plugins/projectexplorer/baseerror.hpp:76-87 | two named kinds never share a BaseError type |
| BaseErrors.DslErrorToBase | src/plugins/projectexplorer/baseerror.hpp:71-95 | type by BaseTypeOf; message, file name, line and character position copied |
| BaseErrors.QmlErrorToBase | src/plugins/projectexplorer/baseerror.hpp:60-69 | an UnknownError carrying the QML error's description, url, line and column |
| BaseErrors.ErrorList.constructor | src/plugins/projectexplorer/baseerror.hpp:100 | an empty list |
| BaseErrors.AddDslError | src/plugins/projectexplorer/baseerror.hpp:97-128 | nothing without a list; otherwise exactly the converted error appended |
| ProjectDocument.ValuesAt | src/plugins/projectexplorer/baseprojectdocument.cpp:316 | QMap::values: one value per key |
| ProjectDocument.ReplaceInStrings | src/plugins/projectexplorer/baseprojectdocument.cpp:425 | `replaceInStrings`: the substring replacement applied to every entry, the length kept |
| ProjectDocument.SameFileTables | src/plugins/projectexplorer/baseprojectdocument.cpp:287-302 | two file tables with the same keys and values are equal |
| ProjectDocument.SameArrayTables | src/plugins/projectexplorer/baseprojectdocument.cpp:287-302 | two array tables with the same keys and lists are equal |
| ProjectDocument.ErrorTexts | src/plugins/projectexplorer/baseprojectdocument.cpp:526-529 | one text per error, its `toString` |
| ProjectDocument.BaseProjectDocument.constructor | src/plugins/projectexplorer/baseprojectdocument.cpp:49-56 | empty tables and no errors; file name, directory and the file-system predicates as given |
| ProjectDocument.BaseProjectDocument.AddFileKey | src/plugins/projectexplorer/baseprojectdocument.cpp:168-173 | the key registered with an empty file name |
| ProjectDocument.BaseProjectDocument.AddArrayFilesKey | src/plugins/projectexplorer/baseprojectdocument.cpp:175-180 | the key registered with an empty list |
| ProjectDocument.BaseProjectDocument.Reset | src/plugins/projectexplorer/baseprojectdocument.cpp:287-302 | every value emptied, every list emptied, the keys kept, the errors cleared |
| ProjectDocument.BaseProjectDocument.ClearFiles | src/plugins/projectexplorer/baseprojectdocument.cpp:289-293 | the walk over the file keys gives ResetFiles |
| ProjectDocument.BaseProjectDocument.ClearArrays | src/plugins/projectexplorer/baseprojectdocument.cpp:294-298 | the walk over the array keys gives ResetArrays |
| ProjectDocument.BaseProjectDocument.AllProjectFilesCount | src/plugins/projectexplorer/baseprojectdocument.cpp:304-312 | the number of file keys plus the lengths of all arrays |
| ProjectDocument.BaseProjectDocument.ArrayLengths | src/plugins/projectexplorer/baseprojectdocument.cpp:308-309 | the sum of the array lengths, in key order |
| ProjectDocument.BaseProjectDocument.AllProjectFiles | src/plugins/projectexplorer/baseprojectdocument.cpp:314-321 | the file values in key order, then every array in key order |
| ProjectDocument.BaseProjectDocument.FileValues | src/plugins/projectexplorer/baseprojectdocument.cpp:316 | the values at the keys, in order |
| ProjectDocument.BaseProjectDocument.ArrayValues | src/plugins/projectexplorer/baseprojectdocument.cpp:317-318 | the arrays at the keys appended in order |
| ProjectDocument.BaseProjectDocument.ProjectArrayFilesCount | src/plugins/projectexplorer/baseprojectdocument.cpp:323-329 | the length of the key's list, 0 for an unknown key |
| ProjectDocument.BaseProjectDocument.ProjectArrayFiles | src/plugins/projectexplorer/baseprojectdocument.cpp:331-337 | the key's list, empty for an unknown key |
| ProjectDocument.BaseProjectDocument.ProjectFile | src/plugins/projectexplorer/baseprojectdocument.cpp:339-345 | the key's file name, empty for an unknown key |
| ProjectDocument.BaseProjectDocument.RemoveProjectFile | src/plugins/projectexplorer/baseprojectdocument.cpp:347-393 | false and nothing changed for a missing file; otherwise the name removed from both tables |
| ProjectDocument.BaseProjectDocument.RemoveFromFiles | src/plugins/projectexplorer/baseprojectdocument.cpp:357-365 | every key whose value is the name dropped |
| ProjectDocument.BaseProjectDocument.RemoveFromArrays | src/plugins/projectexplorer/baseprojectdocument.cpp:367-382 | the name removed from every list, an emptied list dropped with its key |
| ProjectDocument.BaseProjectDocument.RemoveFromArray | src/plugins/projectexplorer/baseprojectdocument.cpp:370-381 | one list: the name removed, the key dropped if that empties it, every other key unchanged |
| ProjectDocument.BaseProjectDocument.RenameProjectFile | src/plugins/projectexplorer/baseprojectdocument.cpp:395-439 | false and nothing changed when the new file is missing; otherwise the old name replaced in both tables |
| ProjectDocument.BaseProjectDocument.RenameInFiles | src/plugins/projectexplorer/baseprojectdocument.cpp:406-414 | every value equal to the old name becomes the new one |
| ProjectDocument.BaseProjectDocument.RenameInArrays | src/plugins/projectexplorer/baseprojectdocument.cpp:416-428 | every list holding the old name gets `replaceInStrings` |
| ProjectDocument.BaseProjectDocument.AddProjectFile | src/plugins/projectexplorer/baseprojectdocument.cpp:441-463 | a missing file: false, table unchanged, a message appended if there is an error text; otherwise the key set and `hasProjectFile` true |
| ProjectDocument.BaseProjectDocument.AddProjectArrayFile | src/plugins/projectexplorer/baseprojectdocument.cpp:474-496 | as AddProjectFile, the file appended to the key's list |
| ProjectDocument.BaseProjectDocument.HasProjectArrayFile | src/plugins/projectexplorer/baseprojectdocument.cpp:498-511 | true exactly when the key is present and its list holds the name |
| ProjectDocument.BaseProjectDocument.IsError | src/plugins/projectexplorer/baseprojectdocument.cpp:513-516 | true exactly when there is an error |
| ProjectDocument.BaseProjectDocument.ErrorString | src/plugins/projectexplorer/baseprojectdocument.cpp:523-533 | the error texts joined by line breaks, no trailing break |
| ProjectDocument.ListsAtLength | src/plugins/projectexplorer/baseprojectdocument.cpp:304-321 | the concatenated lists are as long as the sum of their lengths |
| ProjectDocument.FilesCountIsLength | src/plugins/projectexplorer/baseprojectdocument.cpp:304-321 | `allProjectFilesCount` is the length of `allProjectFiles` |
| ProjectDocument.ValuesAtHas | src/plugins/projectexplorer/baseprojectdocument.cpp:316 | a name is among the values exactly when a key holds it |
| ProjectDocument.ListsAtHas | src/plugins/projectexplorer/baseprojectdocument.cpp:317-318 | a name is among the lists exactly when one of them holds it |
| ProjectDocument.AllFilesHas | src/plugins/projectexplorer/baseprojectdocument.cpp:314-321 | a file is listed exactly when a file key or an array holds it |
| ProjectDocument.ResetLeavesKeysOnly | src/plugins/projectexplorer/baseprojectdocument.cpp:287-312 | after `reset` the count is the number of file keys and every listed file is empty |
| ProjectDocument.LengthsAtEmpty | src/plugins/projectexplorer/baseprojectdocument.cpp:308-309 | empty lists add nothing to the count |
| ProjectDocument.RemovedFileIsGone | src/plugins/projectexplorer/baseprojectdocument.cpp:347-393 | after removal the name is listed nowhere, and every entry without it is kept |
| ProjectDocument.RenamedFileIsFound | src/plugins/projectexplorer/baseprojectdocument.cpp:395-439 | after renaming the keys are the same and every entry equal to the old name is the new one |
| ProjectDocument.RenameRewritesLongerEntries | src/plugins/projectexplorer/baseprojectdocument.cpp:425 | in a list holding the old name an entry merely containing it is rewritten too |
| ProjectNodes.FolderKeyOfProjectOrVirtual | src/plugins/projectexplorer/baseprojectnodes.cpp:28-34 | a project node or a virtual folder has the empty key |
| ProjectNodes.FolderKeyBelowProject | src/plugins/projectexplorer/baseprojectnodes.cpp:36-42 | below a project node or virtual folder the key is the name without spaces |
| ProjectNodes.FolderKeyNested | src/plugins/projectexplorer/baseprojectnodes.cpp:44-57 | deeper down the key is the parent's key, `/`, and the name without spaces |
| ProjectNodes.FolderKeyOf | src/plugins/projectexplorer/baseprojectnodes.cpp:28-58 | the loop over the parents gives FolderKey |
| ProjectNodes.WholeKeyOf | src/plugins/projectexplorer/baseprojectnodes.cpp:243-249 | the registered key: folder key, `/` unless it is empty, the key |
| ProjectNodes.WholeKeyShape | src/plugins/projectexplorer/baseprojectnodes.cpp:243-249 | the key ends the whole key; directly below the project it is the key itself |
| ProjectNodes.WithFolderShape | src/plugins/projectexplorer/baseproject.cpp:251-252 | adding a folder appends it and changes only the parent's sub-folder list |
| ProjectNodes.WithFolderWellFormed | src/plugins/projectexplorer/baseproject.cpp:251-252 | adding a folder keeps the tree's shape |
| ProjectNodes.WithFolderKeepsKeys | src/plugins/projectexplorer/baseprojectnodes.cpp:28-58 | adding a folder keeps every existing node's key parts |
| ProjectNodes.WithFolderKey | src/plugins/projectexplorer/baseprojectnodes.cpp:28-58 | the new folder's key: empty when virtual, its name below a project node, the parent's key and its name deeper down |
| ProjectNodes.WithFolderKeepsFolderKeys | src/plugins/projectexplorer/baseprojectnodes.cpp:28-58 | adding a folder keeps every existing folder's key |
| ProjectNodes.SupportedActions | src/plugins/projectexplorer/baseprojectnodes.cpp:109-123 | `[RemoveFile, Rename]` exactly for a file node, nothing otherwise |
| ProjectNodes.FirstMissing | src/plugins/projectexplorer/baseprojectnodes.cpp:162-167 | the first path whose removal fails, or the number of paths |
| ProjectNodes.WithoutStep | src/plugins/projectexplorer/baseprojectnodes.cpp:162-167 | one more name of the run is one more removal on each table |
| ProjectNodes.WithoutLeavesNone | src/plugins/projectexplorer/baseprojectnodes.cpp:162-167 | after the run no table entry holds a removed name |
| ProjectNodes.BaseProjectNode.constructor | src/plugins/projectexplorer/baseprojectnodes.cpp:82-97 | a tree of one project node whose path is the project file |
| ProjectNodes.BaseProjectNode.AddFileKey | src/plugins/projectexplorer/baseprojectnodes.cpp:234-254 | a blank key ignored; otherwise listed under its folder and registered under the whole key |
| ProjectNodes.BaseProjectNode.AddArrayFilesKey | src/plugins/projectexplorer/baseprojectnodes.cpp:256-276 | as AddFileKey, for an array key |
| ProjectNodes.BaseProjectNode.AllFiles | src/plugins/projectexplorer/baseprojectnodes.cpp:216-222 | the document's files and then the project file: one more than the count |
| ProjectNodes.BaseProjectNode.RemoveFiles | src/plugins/projectexplorer/baseprojectnodes.cpp:154-175 | the paths before the first missing one removed; false at a missing one, else the rebuild's outcome |
| ProjectNodes.BaseProjectNode.RenameFile | src/plugins/projectexplorer/baseprojectnodes.cpp:186-200 | the document renames, and the rebuild's outcome is returned either way |
| ProjectNodes.BaseProjectNode.AddFolderNodeTo | src/plugins/projectexplorer/baseproject.cpp:251-252 | the new folder appended and listed under its parent |
| BaseProjects.DisplayNames | src/plugins/projectexplorer/baseproject.cpp:268-270 | the sub-folders' display names, in order |
| BaseProjects.FirstWithKey | src/plugins/projectexplorer/baseproject.cpp:268-274 | the first name with the key, no earlier one, or -1 |
| BaseProjects.FirstWithKeyIs | src/plugins/projectexplorer/baseproject.cpp:268-274 | any first match is the one found |
| BaseProjects.FindNamed | src/plugins/projectexplorer/baseproject.cpp:265-276 | the loop finds the first sub-folder name that normalises to the query |
| BaseProjects.SubFolderOfIs | src/plugins/projectexplorer/baseproject.cpp:258-277 | the first sub-folder carrying the name is the one `subFolderNode` gives |
| BaseProjects.SubFolderOfFinds | src/plugins/projectexplorer/baseproject.cpp:258-277 | what is found is a sub-folder of the parent (or the root) carrying the name; none exactly when none carries it |
| BaseProjects.AddFolderTo | src/plugins/projectexplorer/baseproject.cpp:222-256 | the corrected find-or-create keeps the tree's shape and returns a node of the tree |
| BaseProjects.SrcIsNormalized | src/plugins/projectexplorer/baseproject.cpp:265-266 | `src` is already normalised |
| BaseProjects.NullParentDereferenced | src/plugins/projectexplorer/baseproject.cpp:243-253 | a null parent and no such sub-folder: the code as written has no result, the corrected one creates `src` under the root |
| BaseProjects.AsWrittenAgreesWithParent | src/plugins/projectexplorer/baseproject.cpp:222-256 | whenever the code as written has a result it is the corrected one; with a parent it always has one |
| BaseProjects.AddFolderBlankIsRoot | src/plugins/projectexplorer/baseproject.cpp:232-234 | a blank name gives the root, the tree unchanged |
| BaseProjects.AddFolderCreates | src/plugins/projectexplorer/baseproject.cpp:240-253 | with no matching sub-folder the new folder is added under the parent or root |
| BaseProjects.NewFolderIsFound | src/plugins/projectexplorer/baseproject.cpp:258-277 | a folder added with a new name is what the lookup then finds |
| BaseProjects.AddFolderFinds | src/plugins/projectexplorer/baseproject.cpp:236-238 | for a non-blank name the result is a sub-folder of the parent (or root) carrying the name |
| BaseProjects.AddFolderGrowsByOne | src/plugins/projectexplorer/baseproject.cpp:222-256 | the tree is unchanged or grows by the new folder; only the parent's list changes |
| BaseProjects.AddFolderKeepsKeys | src/plugins/projectexplorer/baseproject.cpp:222-256 | every existing folder keeps its key |
| BaseProjects.AddFolderNewFolder | src/plugins/projectexplorer/baseproject.cpp:240-253 | a new plain folder's path is the parent's, `/`, the name without spaces; a virtual one shares the parent's path and has the empty key |
| BaseProjects.AddFolderIdempotent | src/plugins/projectexplorer/baseproject.cpp:236-238 | a second call with the same name returns the same folder and adds nothing |
| BaseProjects.BaseProject.constructor | src/plugins/projectexplorer/baseproject.cpp:48-60 | a project with its root node and no errors |
| BaseProjects.BaseProject.IsError | src/plugins/projectexplorer/baseproject.cpp:189-192 | true exactly when there is an error |
| BaseProjects.BaseProject.AddError | src/plugins/projectexplorer/baseproject.cpp:200-205 | exactly the error appended, and `isError` holds |
| BaseProjects.BaseProject.ResetErrors | src/plugins/projectexplorer/baseproject.cpp:301-306 | no errors, and `isError` fails |
| BaseProjects.BaseProject.SubFolderNode | src/plugins/projectexplorer/baseproject.cpp:258-277 | the result is SubFolderOf |
| BaseProjects.BaseProject.AddFolderNode | src/plugins/projectexplorer/baseproject.cpp:222-256 | the tree and the result are AddFolderTo (corrected, see ## Findings) |
| BaseProjects.BaseProject.AddTopFolderNode | src/plugins/projectexplorer/baseproject.cpp:207-220 | AddFolderTo without a parent: the root for a blank name, else a folder under the root |
| BaseProjects.BaseProjectManager.constructor | src/plugins/projectexplorer/baseproject.cpp:326-328 | no projects, the mime type as given |
| BaseProjects.BaseProjectManager.RemoveProject | src/plugins/projectexplorer/baseproject.cpp:400-409 | every entry for the project dropped, every other project kept; nothing for null |
| BaseProjects.BaseProjectManager.OpenProject | src/plugins/projectexplorer/baseproject.cpp:340-398 | null with the already-open message for an open file name, the not-a-file message for a path that is not a file, both carrying the file name with native separators, null when reload fails; otherwise the new project appended |

## Left out

Framework and foreign code:
- The DSL tokenizer (`ComCreateCommonTokens`) is external code. It is the `tokenize` parameter, so token contents are whatever it returns.
- Qt text-layout plumbing is not modelled, beyond the block text, revision and user data it exposes: `QTextBlock` navigation, `QTextCursor` editing, and `setFormat`/`setParentheses`, whose effects become fields of the highlighter state.
- `TabSettings::indentLine` is not modelled. The indenter returns the depth it would pass to it, or the decision to leave the block alone.
- The project document's INI file is not modelled: writing it, the reload that `save` triggers, and `QSettings` parsing. `save` is taken to return true on every path, since baseprojectdocument.cpp always returns true there. The outcome of reloading a project is a parameter.
- `QDir::cleanPath` is a field of the project document and `QDir::toNativeSeparators` a parameter of `OpenProject`, applied to the file name in both of its messages. The file-system existence test is a predicate. `relativeFilePath` is used only on the `save` path, which is left out. Translation with `tr()` is the identity.
- The following are left out entirely: Qt signals and slots, icons, display names beyond the stored name, the sub-folder priority (200) that the nodes report, `DocumentManager` registration, the task hub, the `createProject` factory of subclasses, and the `QTC_ASSERT` on the project explorer plugin.
- `update`/`updateFileNodes` are virtual hooks for subclasses. Their outcome is the `updated` parameter of the operations that call them.
- projectnodes.h (the Qt Creator base node classes) and dslerror.hpp (the DSL parser's error class) are not part of this model. Nodes are indices into a sequence in the order they were created, and a `DslError` is the four fields the conversion reads.
- `BaseError(errorType)` leaves the line and the column uninitialised. The constructor's contract says nothing about them.
- `TextUtil.StrLe`, `FormatterRules.ColumnOf` and every token position and length count Unicode characters, because a Dafny `string` is a sequence of them. `QString` counts UTF-16 code units, so for text outside the Basic Multilingual Plane the positions, the tab columns and the `QString` key order of the model differ from the program's.
- `AutoCompleter.InsertParagraphSeparator` tests only the text from the cursor to the end of its block. The source moves to the end of the block keeping the anchor, so with a selection whose anchor lies before the cursor the selected text is tested too. The selection anchor is not modelled.
- Counts returned as C++ `int` are unbounded integers. Overflow of a file count is not modelled.
- The debug output is left out: `dump`, `stateToString` and the `qDebug` traces.

Modelling limits:
- A token's `end()` is taken to be `start + length`, one past its last character. `tokenUnderCursor`'s half-open comparison implies this.
- `CodeFormatter.Formatter.OnEnter`: the `expression_maybe_continuation` loop never ends when the state stack has one frame. A `requires` excludes that case.
- `CodeFormatter.LineStateChanged`: restoring an empty state stack is undefined behaviour in the source (`QStack::top` on an empty stack). The recomputing operations therefore require the restored stack to be well formed, with `topmost_intro` at the bottom.
- `CodeFormatter.LineStateChanged`: its own `ensures` states only the cases that change nothing. The recomputed case is `RecalcBlock`, whose contract states that case, followed by invalidating the next block.
- `Highlighter.BlockStateRoundTrip`: the packed block state (`braceDepth << 8 | state`) is shown to decode exactly only for brace depths from -2^23 to 2^23 - 1. Outside that range the shift into a 32-bit `int` loses bits.
- The formatter's `tryStatement` is never called, and the commented-out transitions are not live code, so neither is modelled.

## Findings

| source | as written | input that shows it | evidently intended | confidence | as-written member | corrected member |
|---|---|---|---|---|---|---|
| src/plugins/dsleditor/dslhighlighter.cpp:175-186 | a multi-line comment token counts as left open when `midRef(end() - 1, 2)` is not `*/`, which reads the token's last character and the one after it | the line `/* a */`, which is one comment token covering positions 0 to 7: the test reads `/` and reports the comment as open | test the token's last two characters, `midRef(end() - 2, 2)`, and count a token shorter than four characters as open; `midRef(end() - 2, 2)` alone would call the unclosed token `/*/` closed | medium, not executed; it rests on `end()` being one past the token | Highlighter.CommentLeftOpenAsWritten, Highlighter.ClosedCommentSeenAsOpen | Highlighter.CommentLeftOpen, Highlighter.ClosedCommentToken, Highlighter.UnclosedCommentToken, Highlighter.OverlappingMarkersOpen, Highlighter.ClosedCommentsKeepFlag |
| src/plugins/dsleditor/dslhighlighter.cpp:188-238 | bracket tokens are recorded at `tokenTextLoc.start()`, a position in the text after the comment prefix, while formats and the `+` marker add `startBlockPos` | the line `*/ {` inside a comment: the prefix is 2 characters and `{` sits at block position 3, yet it is recorded at position 1 | record at `startBlockPos + tokenTextLoc.start()` | not executed | Highlighter.BracketPosAsWritten, Highlighter.BracketPosAsWrittenMisplaced | Highlighter.BracketPos, Highlighter.BracketPosInBlock |
| src/plugins/dsleditor/dslautocompleter.cpp:51-91 | after a comment prefix the tokens of the rest of the line are compared with the cursor's block position without the prefix offset | the block `*/ x` inside a comment with the cursor at 1, between `*` and `/`: the identifier `x`, at block position 3, is returned as the token under the cursor | compare and return positions shifted by the prefix length | not executed | AutoCompleter.TokenUnderCursorAsWritten, AutoCompleter.TokenUnderCursorAsWrittenMisplaced | AutoCompleter.TokenUnderCursorRule, AutoCompleter.TokenUnderCursorCovers |
| src/plugins/projectexplorer/baseproject.cpp:243-253 | when no sub-folder of that name exists, the new folder's path and its insertion use `parentNode`, not the resolved `parentFolderNode` | a null parent on a tree holding only the project node `demo`, name `src`: the code dereferences a null pointer | use `parentFolderNode`, which falls back to the root node | medium, not executed | BaseProjects.AddFolderAsWritten, BaseProjects.NullParentDereferenced | BaseProjects.AddFolderTo, BaseProjects.AddFolderFinds, BaseProjects.AddFolderIdempotent, BaseProjects.AsWrittenAgreesWithParent |
