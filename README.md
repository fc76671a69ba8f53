# A verified model of a small Go compiler front end

This project models the core of a small teaching compiler written in Go. It has three parts.

- **The scanner** (`lexer/`). A hand-written lexer reads the source one character at a time from a push-back stream. It produces tokens: keywords, type names, variables, operators, brackets, strings, integers, floats, comments and error tokens. Variable names are numbered through a shared id table.
- **The expression parser** (`grammar/`). A backtracking recursive-descent parser for `E -> TG`, `G -> ATG | &`, `T -> FS`, `S -> MFS | &`, `F -> (E) | i`, `A -> + | -`, `M -> / | *`. It reads grammar symbols from a push-back stream and matches terminals against a queue of scanner tokens. It records the derivation as a trace of `kill` and `Continue` steps.
- **The LL(1) front end** (`grammarLL1/`). It loads grammar rules from text and computes FIRST and FOLLOW sets by fixpoint iteration.

The shared utilities are modelled as well:

- the stream (`util/stream.go`);
- the queue (`util/queue.go`);
- the character classes (`lexer/define/define.go`);
- the token type and id table (`lexer/token.go`);
- the production renaming (`util/transfer/transfer.go`).

Code that changes state step by step is modelled imperatively:

- classes `Stream`, `Queue`, `Rule`, `VariableTable`, `Lexer` and `Grammar`;
- loops with invariants;
- in-place array reversal.

The scanner's methods, the rule loader, the FIRST and FOLLOW loops, the stream and the queue are each proved against a pure specification function, and the properties are then proved about those functions. The recursive-descent parser is specified the same way. `Grammar.Descend` is the recursive `Analyse(count)` as a function of the symbol stream and the token queue, and the methods `Analyse`, `Derive`, `NextAlternative`, `TryAlternative` and `NextSymbol` are each proved equal to it or to one of its parts. `GrammarFacts` then works out what `Descend` makes of concrete sentences: `i+i` and `(i-i)` are accepted, and `i+i*i**` and `i+i` followed by anything but an operator are rejected.

The model keeps the quirks of the code as written. For example, `MakeNumber` stays in its all-zeros state 1 when a letter follows, so `0a` gives the INTEGER `0` and leaves `a` unread, while `1a` gives an ERROR token.

- Scanner: every `Make...` routine equals a recursive function over a `Cursor`, which is the observable state of the stream. `Lexer.Analyse` equals `Lex`, and lemmas in `LexerFacts` state what `Lex` produces.
- Parser: `Parse` accepts exactly when `Accepts`, the verdict on `Descend` from `E`, does.
- FIRST and FOLLOW: the computed tables are shown to be the least tables closed under the rules. `Fixture` works out both tables for the expression grammar of the test file.

Files:

- `wrappers.dfy`: Option and Result.
- `text.dfy`: the string library calls the code relies on.
- `symbols.dfy`, `rule.dfy`, `first.dfy`, `follow.dfy`, `fixture.dfy`: the LL(1) front end.
- `transfer.dfy`: production renaming.
- `queue.dfy`, `stream.dfy`: utilities.
- `define.dfy`, `token.dfy`, `lexer.dfy`, `lexer_facts.dfy`: the scanner.
- `grammar.dfy`: the parser.
- `grammar_facts.dfy`: what the parser does with concrete sentences.

## Model

| member | source | states |
|---|---|---|
| Symbols.NonterminalsAreUpperCase | grammarLL1/util/util.go:5-10 | IsTerminal is false exactly for the 26 upper-case letters |
| Symbols.MarkersAreTerminals | grammarLL1/util/util.go:5-10 | the empty marker `&`, the end marker `#`, `i`, brackets and `+` are terminals; `E` and `G` are not |
| Text.Split | grammarLL1/rule/rule.go:26 | strings.Split yields at least one part; joining the parts with the separator gives the input back; no part contains the separator |
| Text.RemoveSpaces | grammarLL1/rule/rule.go:35 | removing spaces leaves no space, keeps only characters of the input, and changes nothing in a space-free string |
| Text.ReplaceChar | util/transfer/transfer.go:11-13 | ReplaceAll of one character removes it when the replacement does not contain it; with a two-character replacement the length grows by the number of occurrences |
| Rules.ParseLine | grammarLL1/rule/rule.go:28-35 | a line is skipped exactly when it is blank; an accepted line has a one-character left side and at least one alternative |
| Rules.RuleLineShape | grammarLL1/rule/rule.go:31-35 | an accepted line is its left side, `->` and a right side; its alternatives joined with `\|` give the right side without spaces; no alternative holds a space or `\|` |
| Rules.Rule.constructor | grammarLL1/rule/rule.go:20-22 | NewRules starts with no rules |
| Rules.Rule.AddRules | grammarLL1/rule/rule.go:25-41 | the new rules and the returned error are those of applying the parsed lines in order from the old rules |
| Rules.Rule.AppendAll | grammarLL1/rule/rule.go:36-38 | the alternatives are appended to the left side's list, in order |
| Rules.NoRollback | grammarLL1/rule/rule.go:31-34 | the first malformed line returns "invalid arg" and keeps everything the earlier well-formed lines added |
| Rules.Accumulates | grammarLL1/rule/rule.go:35-38 | over well-formed lines the error is nil and each left side's alternatives are its old ones followed by those of each line, in line order |
| Rules.KeysAfterLoading | grammarLL1/rule/rule.go:27-39 | the keys after loading are the old keys plus the left sides of the rule lines read before the first malformed line |
| Rules.BlankLinesAddNothing | grammarLL1/rule/rule.go:28-30 | blank lines change nothing and give no error |
| Rules.Rule.HaveEmptySet | grammarLL1/rule/rule.go:44-51 | true exactly when `&` is one of the alternatives |
| Rules.Rule.TheFirstItemIs | grammarLL1/rule/rule.go:53-60 | the item when it is an alternative, else the empty string |
| Rules.Rule.GetProcessMethod | grammarLL1/rule/rule.go:64-74 | the formula for the first alternative that starts with `end[0]`; nil exactly when no alternative starts with it |
| First.MergeSet | grammarLL1/first/first.go:74-83 | the result is the union; the count is the number of new elements, so it is zero exactly when nothing was added (follow.go:95-104 is the same routine) |
| First.RemoveEmptyAndMergeSet | grammarLL1/first/first.go:53-70 | adds `b` without `&`; counts the new elements; `b` is left as it was, `&` included |
| First.AddAlternative | grammarLL1/first/first.go:29-40 | one alternative adds its first symbol if terminal, else that nonterminal's FIRST set without `&`; the count is zero exactly when the alternative was already satisfied |
| First.FirstOfKey | grammarLL1/first/first.go:23-41 | the loop over one left side grows the table, stays below every closed table and, when nothing changed, leaves that left side closed |
| First.FirstPass | grammarLL1/first/first.go:20-45 | one pass over all left sides either strictly adds pairs to the table or leaves it closed under the rules |
| First.GetFirstSet | grammarLL1/first/first.go:16-48 | the result has a set for every left side, is closed under the FIRST rules, lies below every closed table (it is the least one), and holds only terminals that begin some alternative |
| First.HaveEmpty | grammarLL1/first/first.go:99-102 | true exactly when `&` is in the set of the symbol; a missing symbol has the empty set |
| First.IsInFirstSet | grammarLL1/first/first.go:105-112 | true exactly when the target is in the set |
| First.EmptyAlternativeGivesEpsilon | grammarLL1/first/first.go:29-34 | a left side with the alternative `&` has `&` in every closed FIRST table |
| First.EpsilonOnlyFromEmptyAlternative | grammarLL1/first/first.go:36-39 | in the least table `&` is in FIRST(x) only when some alternative of x starts with `&`, because nonterminal contributions drop `&` |
| Follow.RemoveEmptyAndMergeSet | grammarLL1/follow/follow.go:80-93 | adds `b` without `&`; the count is the number of new elements |
| Follow.AddPiece | grammarLL1/follow/follow.go:41-65 | one step of the scan adds FOLLOW(left) at the end, a terminal as it is, or FIRST of a nonterminal without `&`; the count is zero exactly when nothing was new |
| Follow.ScanPosition | grammarLL1/follow/follow.go:39-68 | the scan after one nonterminal keeps the table sound and, when nothing changed, that position is closed |
| Follow.FollowOfAlt | grammarLL1/follow/follow.go:35-69 | all positions of one alternative; unchanged means the alternative is closed |
| Follow.FollowOfKey | grammarLL1/follow/follow.go:33-70 | all alternatives of one left side; unchanged means the left side is closed |
| Follow.FollowPass | grammarLL1/follow/follow.go:32-71 | one pass; unchanged means every left side is closed |
| Follow.Initial | grammarLL1/follow/follow.go:22-26 | the starting table has the keys of the FIRST table, all empty but `{#}` for the start symbol |
| Follow.InitialSound | grammarLL1/follow/follow.go:22-26 | the starting table lies below every closed FOLLOW table |
| Follow.GetFollowSet | grammarLL1/follow/follow.go:17-78 | empty for an empty FIRST table; otherwise the keys of the FIRST table, closed under the FOLLOW rules with `#` for the start symbol, and the least such table |
| Fixture.FirstTableClosed | grammarLL1/rule_test.go:14-16 | the hand-computed FIRST table of the test grammar is closed under its rules |
| Fixture.FirstOfFixture | grammarLL1/rule_test.go:14-16 | GetFirstSet of the test grammar is exactly that table; in particular FIRST(F) = {`(`, `i`} |
| Fixture.FollowTableClosed | grammarLL1/rule_test.go:14-18 | the hand-computed FOLLOW table of the test grammar with start E is closed under its rules |
| Fixture.FollowOfFixture | grammarLL1/rule_test.go:14-18 | GetFollowSet of the test grammar is exactly that table; in particular FOLLOW(E) = {`)`, `#`} |
| Transfer.Transfer | util/transfer/transfer.go:9-15 | no `G`, `S` or `&` is left, and a string without them is unchanged |
| Transfer.TransferIsExpand | util/transfer/transfer.go:9-15 | the three chained replacements equal replacing each character by its image independently |
| Transfer.TransferIdempotent | util/transfer/transfer.go:9-15 | renaming twice is renaming once |
| Transfer.TransferLength | util/transfer/transfer.go:9-15 | each `G` and `S` adds one character |
| Queues.IsContainInt | util/queue.go:6-13 | true exactly when the item is in the slice |
| Queues.Queue.constructor | util/queue.go:21-23 | a new queue is empty |
| Queues.Queue.PushBack | util/queue.go:26-28 | the value is appended at the back |
| Queues.Queue.PushFront | util/queue.go:31-33 | the value is put in front |
| Queues.Queue.Front | util/queue.go:36-42 | the first element, nil exactly when the queue is empty |
| Queues.Queue.Back | util/queue.go:49-55 | the last element, nil exactly when the queue is empty |
| Queues.Queue.Pop | util/queue.go:58-65 | returns what Front returned and removes it; an empty queue stays empty |
| Queues.Queue.Size | util/queue.go:68-70 | the number of elements |
| Queues.Queue.Empty | util/queue.go:73-75 | true exactly when the size is zero, that is, when Front is nil |
| Queues.Queue.Clear | util/queue.go:78-82 | the queue ends empty |
| Queues.Queue.PushFrontThenPop | util/queue.go:31-65 | Pop right after PushFront gives the value back and restores the queue |
| Queues.Queue.PushBackThenPop | util/queue.go:26-65 | on an empty queue, Pop right after PushBack gives the value back |
| Define.OneCharacterOnly | lexer/define/define.go:10-15 | the anchored one-character patterns accept only one-character strings |
| Define.LiteralIsLetterOrNumber | lexer/define/define.go:10-12 | the literal class is the union of the disjoint letter and digit classes |
| Define.OperatorClass | lexer/define/define.go:13 | the operator class is exactly fourteen characters; `,` and `.` are not operators |
| Define.ClassesDisjoint | lexer/define/define.go:10-73 | letters and digits, operators, brackets, quotes and line breaks are pairwise disjoint, and `$` is in none of them |
| Define.ReservedWordsDisjoint | lexer/define/define.go:41-65 | no word is both a keyword and a type name |
| Define.TypeCount | lexer/define/define.go:59-65 | there are five type names |
| Streams.Runes | util/stream.go:23-24 | one string per character of the source, in order |
| Streams.Take | util/stream.go:39-57 | Next hands out the first pending string, or the end token and marks the end once nothing is pending |
| Streams.Look | util/stream.go:78-90 | Peek returns what Next would return |
| Streams.Push | util/stream.go:93-96 | PutBack puts the string in front of everything pending and steps the column back |
| Streams.TakeShrinks | util/stream.go:39-75 | Next makes progress whenever HasNext holds |
| Streams.PushThenTake | util/stream.go:39-96 | Next after PutBack(e) returns e and restores the pending strings, and the position too unless e is a line break |
| Streams.PushIsLifo | util/stream.go:93-96 | put-back strings come out last in, first out |
| Streams.TakeAtEnd | util/stream.go:44-50 | once nothing is left, Next keeps returning the end token |
| Streams.SkipThenLook | util/stream.go:99-103 | after ClearFronts(k) the next string is the k-th pending one, or the end token past them |
| Streams.SkipNothing | util/stream.go:99-103 | a non-positive count skips nothing |
| Streams.Stream.constructor | util/stream.go:22-26 | a fresh stream: line 1, column 1, nothing put back, end not reached |
| Streams.Stream.GetLine | util/stream.go:29-31 | the current line |
| Streams.Stream.GetColumn | util/stream.go:34-36 | the current column |
| Streams.Stream.Next | util/stream.go:39-57 | the result and the new state are those of Take |
| Streams.Stream.HasNext | util/stream.go:60-75 | true exactly when something is pending or the end token has not been handed out; the observable state does not change |
| Streams.Stream.Peek | util/stream.go:78-90 | the result of Look; the observable state does not change |
| Streams.Stream.PutBack | util/stream.go:93-96 | the new state is that of Push |
| Streams.Stream.ClearFronts | util/stream.go:99-103 | the new state is that of `count` calls of Next |
| Tokens.TypeName | lexer/token.go:33-63 | an eight-character label for each of the twelve defined codes; a panic for any other code |
| Tokens.TypeNamesDistinct | lexer/token.go:33-63 | different codes get different labels |
| Tokens.ValueKinds | lexer/token.go:103-146 | a value is a variable or a float, boolean, integer or string; numbers are scalars; operators and brackets are not values |
| Tokens.Register | lexer/token.go:75-86 | a new variable name gets the next number, a known one keeps its number, and any other token gets 0 and leaves the table alone |
| Tokens.RegisterKeepsNumbered | lexer/token.go:76-84 | ids stay one-to-one and run from 1 to the number of names |
| Tokens.IdsInOrderOfFirstAppearance | lexer/token.go:76-84 | after a run of variable tokens, the table holds exactly the names seen, and each name's id is one more than its position in order of first appearance |
| Tokens.VariableTable.constructor | lexer/token.go:13-15 | the table starts empty |
| Tokens.VariableTable.NewToken | lexer/token.go:75-86 | the token and the new table are given by Register, with row and column 0 |
| Tokens.VariableTable.NewTokenWithLocation | lexer/token.go:89-100 | the same numbering, with the given row and column |
| Lexer.CommentLoop | lexer/lexer.go:113-124 | a COMMENT token, and progress whenever input remains |
| Lexer.StringLoop | lexer/lexer.go:126-155 | a STRING token or a panic; progress on success |
| Lexer.ErrLoop | lexer/lexer.go:359-368 | an ERROR token at the given position; progress unless the next character is an operator or bracket, which is put back |
| Lexer.Err | lexer/lexer.go:349-369 | an ERROR token, with the same progress guarantee |
| Lexer.WordLoop | lexer/lexer.go:157-184 | an ERROR token or a token typed by WordType (type name, keyword, boolean or variable) |
| Lexer.NumStep | lexer/lexer.go:376-453 | each state of MakeNumber moves to a state in 0..6, moves to the error state, or emits an INTEGER or FLOAT |
| Lexer.NumberLoop | lexer/lexer.go:371-460 | MakeNumber yields a token whenever input remains and it starts in a non-start state or on a character that can begin a number; it always makes progress |
| Lexer.OpLoop | lexer/lexer.go:186-347 | an OPERATOR token or a panic; progress on success |
| Lexer.Scan | lexer/lexer.go:45-107 | one round of the loop of Analyse either panics or consumes input |
| Lexer.ScanNumber | lexer/lexer.go:80-97 | a number that starts the round is always produced, after the character is put back |
| Lexer.ScanSymbol | lexer/lexer.go:80-106 | numbers, signed numbers, operators and errors consume input |
| Lexer.ScanOperator | lexer/lexer.go:100-106 | operators and error tokens consume input |
| Lexer.Lex | lexer/lexer.go:42-111 | the tokens produced so far are a prefix of the result |
| Lexer.Lexer.constructor | lexer/lexer.go:37-40 | NewLexer: a fresh stream over the source with `$` as its end token |
| Lexer.Lexer.MakeComment | lexer/lexer.go:113-124 | the token and the new state are those of CommentLoop |
| Lexer.Lexer.MakeString | lexer/lexer.go:126-155 | the outcome and the new state are those of StringLoop |
| Lexer.Lexer.MakeErr | lexer/lexer.go:349-369 | the token and the new state are those of Err |
| Lexer.Lexer.MakeVarOrKeyword | lexer/lexer.go:157-184 | the token and the new state are those of WordLoop |
| Lexer.Lexer.MakeOp | lexer/lexer.go:186-347 | the outcome and the new state are those of OpLoop |
| Lexer.Lexer.MakeNumber | lexer/lexer.go:371-460 | the token (or nil) and the new state are those of NumberLoop |
| Lexer.Lexer.Analyse | lexer/lexer.go:42-111 | the token list or the panic, and the final state, are those of Lex |
| Lexer.Lexer.ScanOne | lexer/lexer.go:45-107 | one loop round equals Scan |
| Lexer.Lexer.ScanOther | lexer/lexer.go:80-106 | the number, operator and error cases equal ScanSymbol |
| Lexer.Lexer.ScanOpOrErr | lexer/lexer.go:100-106 | the operator and error cases equal ScanOperator |
| Lexer.AnalyseSource | lexer/lexer.go:33-35 | scanning a source string from a fresh stream gives Lex of the start state |
| LexerFacts.BlankSkipped | lexer/lexer.go:51-53 | spaces, line feeds and tabs produce no token |
| LexerFacts.EndStops | lexer/lexer.go:44-48 | scanning stops with the tokens so far when HasNext fails or `$` is read |
| LexerFacts.BracketLexed | lexer/lexer.go:63-66 | a bracket becomes a BRACKET token holding it, with id 0 |
| LexerFacts.OpTwoChars | lexer/lexer.go:186-345 | a two-character operator is always taken whole |
| LexerFacts.OpOneChar | lexer/lexer.go:225-336 | otherwise an operator is its first character, and the lookahead is put back |
| LexerFacts.ColonNeedsEquals | lexer/lexer.go:337-343 | a `:` not followed by `=` panics |
| LexerFacts.SeparatorOps | lexer/lexer.go:220-223 | `,` and `;` are single-character operators that read nothing more |
| LexerFacts.WordRun | lexer/lexer.go:157-184 | an identifier is the longest run of letters, digits and `_`, typed by WordType, and the character after it stays unread |
| LexerFacts.WordThenDot | lexer/lexer.go:163-164 | a `.` right after an identifier makes an ERROR token |
| LexerFacts.StringEndsWithCloser | lexer/lexer.go:139-151 | a finished string keeps what was read and ends with the quote its state waits for |
| LexerFacts.StringShape | lexer/lexer.go:126-151 | a string token starts with its opening quote and ends with the matching closing quote |
| LexerFacts.StringRun | lexer/lexer.go:139-150 | in the waiting state a string ends at the first closing quote: the text read so far, the characters before that quote and the quote itself, with what follows it unread |
| LexerFacts.StringFromOpener | lexer/lexer.go:126-150 | a string opened by `'` runs to the next `'`, and one opened by any other character to the next `"`; the token is the opener, the characters in between and the closer |
| LexerFacts.UnterminatedStringPanics | lexer/lexer.go:129-154 | a string whose closing quote never comes panics |
| LexerFacts.NumStepKeepsShape | lexer/lexer.go:376-453 | each move of MakeNumber keeps the shape of the text read, and each emitted INTEGER or FLOAT has the shape of its type |
| LexerFacts.NumberShapes | lexer/lexer.go:371-460 | every INTEGER is an optionally signed run of digits, and every FLOAT is digits with exactly one dot after an optional sign |
| LexerFacts.IntegerRun | lexer/lexer.go:371-406 | a run of digits followed by a character that is not a digit, a dot or a letter gives an INTEGER spelled as the run, and that character stays unread |
| LexerFacts.ZerosThenLetter | lexer/lexer.go:387-396 | a run of zeros followed by a letter gives an INTEGER spelled as the zeros, with the letter unread |
| LexerFacts.FloatRun | lexer/lexer.go:371-460 | digits, a dot and digits, followed by a character that is neither a digit nor a dot, give a FLOAT spelled as that text |
| LexerFacts.NumberThenLetter | lexer/lexer.go:397-442 | a run with a non-zero digit followed by a letter gives an ERROR token spelled as the run and everything up to the next operator or bracket, which stays unread |
| LexerFacts.SecondDot | lexer/lexer.go:415-442 | digits, a dot, optional digits and a second dot give an ERROR token spelled as all of it up to the next operator or bracket |
| LexerFacts.ErrRun | lexer/lexer.go:359-368 | MakeErr swallows everything up to an operator or bracket and leaves that unread |
| LexerFacts.SignRule | lexer/lexer.go:86-98 | `+`, `-` or `.` before a digit starts a number exactly when there is no previous token, or it is not a value, or it is an operator; otherwise `+` and `-` become one-character operators and `.` an ERROR token |
| LexerFacts.SignAsOperator | lexer/lexer.go:100-104 | a sign after a value is the operator on its own, with the digit put back |
| LexerFacts.EmitAtEnd | lexer/lexer.go:374-406 | at the end of the source the lookahead is the end token `$`, so a state that emits on it emits the text read so far |
| LexerFacts.IntegerAtEnd | lexer/lexer.go:371-406 | a run of digits that ends the source gives an INTEGER spelled as the run, with the end token unread |
| LexerFacts.FractionAtEnd | lexer/lexer.go:415-438 | after the dot, digits that end the source finish a FLOAT |
| LexerFacts.FloatAtEnd | lexer/lexer.go:371-438 | digits, a dot and digits that end the source give a FLOAT spelled as that text |
| LexerFacts.IntegerPart | lexer/lexer.go:376-401 | digits and a dot lead from the start state to the state after the dot, with the text read so far |
| LexerFacts.SignStep | lexer/lexer.go:381-383 | a sign in the start state is read and leads to state 3 |
| LexerFacts.SignedIntegerRun | lexer/lexer.go:371-414 | a sign, digits, and a character that is not a digit, a dot or a letter give an INTEGER spelled with the sign, and that character stays unread |
| LexerFacts.SignedFloatRun | lexer/lexer.go:371-438 | a sign, digits, a dot and digits, followed by a character that is neither a digit nor a dot, give a FLOAT spelled with the sign |
| LexerFacts.SignedIntegerScanned | lexer/lexer.go:86-97 | with no previous token, a non-value or an operator before it, a sign before digits is scanned as one signed INTEGER |
| Grammar.GrammarClosed | grammar/grammar.go:42-52 | nonterminals are not terminals, each has an alternative, and no alternative is empty |
| Grammar.SymbolDefined | grammar/grammar.go:42-52 | every symbol of an alternative is a terminal or has productions |
| Grammar.EndTypesAreSymbols | grammar/grammar.go:95-107 | terminals are one character long and differ from the end token |
| Grammar.MatchUnique | grammar/grammar.go:127-218 | a token matches at most one terminal, and never `&` |
| Grammar.OriginReads | grammar/grammar.go:84-91 | GetNextOrigin reads one symbol, joined with a following quote |
| Grammar.StartOrigin | grammar/grammar.go:57 | the parse starts from the symbol E |
| Grammar.ReversedTwice | grammar/grammar.go:288-293 | reversing twice restores the order |
| Grammar.Verdict | grammar/grammar.go:58-70 | the parse is accepted exactly when the descent succeeded and the queue is empty or holds one empty token |
| Grammar.Reverse | grammar/grammar.go:280-293 | reverse and reverseAny reverse the array in place |
| Grammar.PushAlternative | grammar/grammar.go:226-228 | the symbols of the alternative come next, in order, and the column steps back by its length |
| Grammar.PutBackEach | grammar/grammar.go:226-228 | PutBack of each string in turn leaves them in front in the opposite order, with the column stepped back once per string |
| Grammar.PushEachFront | grammar/grammar.go:254-256 | PushFront of each token in turn leaves them in front of the queue in the opposite order |
| Grammar.RollBack | grammar/grammar.go:254-256 | the popped tokens go back to the front of the queue in their original order |
| Grammar.Grammar.constructor | grammar/grammar.go:73-80 | NewGrammar: a symbol stream over the start text and the tokens queued in order |
| Grammar.Grammar.GetNextOrigin | grammar/grammar.go:84-91 | the origin and the new stream state are those of Origin |
| Grammar.AnalyseCases | grammar/grammar.go:111-218 | `&` succeeds, pushes an empty token and leaves the stream after it; a terminal leaves the queue alone and succeeds exactly when the front token matches it, and when a front token does not match it discards the `count - 1` symbols after it; with an empty queue it fails without discarding; a symbol with no productions fails and discards the same way |
| Grammar.SymbolsStep | grammar/grammar.go:229-262 | one round over the symbols of an alternative: a run out of fuel stops; a failure puts the popped tokens back in front of the queue and leaves the list reversed; a success appends the expansion and the symbol's trace and pops the front token unless it was the last symbol |
| Grammar.AlternativesDone | grammar/grammar.go:224-271 | the loop over the alternatives stops once one matched, the fuel ran out or none is left |
| Grammar.Accepts | grammar/grammar.go:55-71 | the top-level verdict: some trace exactly when the descent from `E` over the tokens succeeded and left no token or one empty token |
| Grammar.Grammar.Analyse | grammar/grammar.go:111-277 | the trace, success, the stream and the queue afterwards are exactly those of Descend; the trace is well formed; a success on a nonterminal starts with one of its productions |
| Grammar.Grammar.Derive | grammar/grammar.go:222-276 | the outcome equals Expand, the loop of Descend over the alternatives; the alternatives are tried in declaration order, every one before the last tried failed, success means the last one matched, a completed failure tried them all, and an unknown origin fails and discards `count - 1` symbols |
| Grammar.Grammar.NextAlternative | grammar/grammar.go:224-271 | one round over the alternatives equals Symbols on the stream with the alternative pushed in front, and records that alternative after the failed ones |
| Grammar.Grammar.TryAlternative | grammar/grammar.go:226-262 | the outcome equals Symbols from the first symbol; the earlier trace is kept; a matched non-empty alternative adds a Continue step for it; the popped tokens are appended to the list in order, and on a failure they go back to the front of the queue in that order while the list is left reversed |
| Grammar.Grammar.NextSymbol | grammar/grammar.go:229-259 | one symbol: the result equals one round of Symbols; on success the trace grows by the expansion and at most one token is popped, none after the last symbol; on a failure the popped list goes back to the queue |
| Grammar.Parse | grammar/grammar.go:55-71 | `trace`, `canKill`, `complete` and `rest` are those of Descend from `E` over the tokens with count 1; the input is accepted exactly when Accepts gives a trace, which is `ps`, that is, when the descent succeeded and left no token or one empty token; an accepted trace is well formed and starts with `E -> TG` |
| GrammarFacts.MFails | grammar/grammar.go:42-52 | `M` before an empty queue or a token that is neither `*` nor `/` fails with no trace, leaves the queue alone and discards the `count - 1` symbols after it |
| GrammarFacts.MOp | grammar/grammar.go:170-193 | `M` in front of `*` or `/` succeeds through that production and leaves the token queued |
| GrammarFacts.AFails | grammar/grammar.go:42-52 | `A` before an empty queue or a token that is neither `+` nor `-` fails with no trace, leaves the queue alone and discards the `count - 1` symbols after it |
| GrammarFacts.AOp | grammar/grammar.go:146-169 | `A` in front of `+` or `-` succeeds through that production and leaves the token queued |
| GrammarFacts.FVar | grammar/grammar.go:134-145 | `F` in front of a value token succeeds through `F -> i` |
| GrammarFacts.FFails | grammar/grammar.go:42-52 | `F` in front of a token that is neither `(` nor a value fails with no trace, leaves the queue alone and discards the `count - 1` symbols after it |
| GrammarFacts.SEmpty | grammar/grammar.go:117-125 | `S` in front of anything but `*` or `/` succeeds through `S -> &` and pushes one empty token |
| GrammarFacts.GEmpty | grammar/grammar.go:117-125 | `G` in front of anything but `+` or `-` succeeds through `G -> &` and pushes one empty token |
| GrammarFacts.TVar | grammar/grammar.go:222-262 | `T` in front of a value not followed by `*` or `/` gives exactly the six-step trace of `T -> FS`, `F -> i`, `S -> &`, pops the value and leaves one empty token in its place |
| GrammarFacts.GOpVar | grammar/grammar.go:222-262 | `G` in front of `+ i` or `- i` with no operator after it succeeds through `G -> ATG` and consumes both tokens |
| GrammarFacts.ESum | grammar/grammar.go:222-262 | `E` in front of `i + i` or `i - i` with no operator after it succeeds through `E -> TG`, consumes the three tokens and leaves one empty token in front of the rest |
| GrammarFacts.FParen | grammar/grammar.go:194-262 | `F` in front of `( i + i )` succeeds through `F -> (E)` and consumes the four tokens before the closing bracket, which stays queued |
| GrammarFacts.TParen | grammar/grammar.go:222-262 | `T` in front of a bracketed sum not followed by `*` or `/` succeeds through `T -> FS` and `F -> (E)` |
| GrammarFacts.EParen | grammar/grammar.go:222-262 | `E` in front of a bracketed sum with no operator after it succeeds through `E -> TG`, `T -> FS` and `F -> (E)` and consumes all five tokens |
| GrammarFacts.SDangling | grammar/grammar.go:222-262 | `S` in front of `*` or `/` not followed by `(` or a value: `S -> MFS` fails at `F` after `M` matched, its steps stay in the trace, the operator goes back to the queue, and `S -> &` succeeds |
| GrammarFacts.SMul | grammar/grammar.go:222-262 | `S` in front of `* i` or `/ i` followed by a dangling operator succeeds through `S -> MFS` and consumes both tokens |
| GrammarFacts.TProduct | grammar/grammar.go:222-262 | `T` in front of `i * i` followed by a dangling operator succeeds through `T -> FS` and consumes the three tokens |
| GrammarFacts.GProduct | grammar/grammar.go:222-262 | `G` in front of `+ i * i` followed by a dangling operator succeeds through `G -> ATG` and consumes the four tokens |
| GrammarFacts.ESumOfProduct | grammar/grammar.go:222-262 | `E` in front of `i + i * i` followed by a dangling operator succeeds, consumes the five tokens and leaves the dangling operators queued behind one empty token |
| GrammarFacts.StartAt | grammar/grammar.go:57 | the parse starts with `E` alone on the symbol stream |
| GrammarFacts.SumAccepted | grammar/grammar.go:55-71 | `i+i`, and any value, `+` or `-`, value, is accepted for every fuel of at least 6, and the trace starts with `E -> TG` |
| GrammarFacts.BracketAccepted | grammar/grammar.go:55-71 | `(i-i)`, and any bracketed sum of two values, is accepted for every fuel of at least 9, and the trace uses `F -> (E)` |
| GrammarFacts.TrailingRejected | grammar/grammar.go:58-70 | a sum of two values followed by one or more tokens, the first of which is not `+`, `-`, `*` or `/`, is rejected for every fuel of at least 6: the tokens left over make the verdict fail |
| GrammarFacts.ProductRejected | grammar/grammar.go:55-71 | `i+i*i**`, and any sentence of that shape, is rejected for every fuel of at least 7, because the two trailing operators are left in the queue |
## Left out

- Reading from files and printing are not modelled. This covers `FromFile`, `Token.Show`, `Stream.Print`, `Grammar.PrintToken`, the `String` methods of the FIRST and FOLLOW tables, `cmd/` and `print/`. `TokenType.String` is modelled as `Tokens.TypeName`.
- The LL(1) analysis table and the table-driven parser (`grammarLL1/analysisTable`) are not part of this model.
- Characters are modelled as single `char`s, so multi-byte UTF-8 runes are not modelled.
- Transfer.TransferLength: counts characters, whereas Go's `len` would count the two bytes of `ε`.
- The regular expressions of `define.go` are replaced by character predicates with the same classes.
- Go's map iteration order is unspecified. The loops over map keys pick an arbitrary remaining key, and the proved results hold for every order.
- Grammar.Grammar.Analyse: the parser's recursion is bounded by a `fuel` parameter, and the `complete` result is false when the fuel runs out. Termination of the Go recursion is not proved, and there is no lemma that more fuel keeps an outcome: the sentence lemmas hold for every fuel from a stated minimum on.
- Grammar.Parse: equals the verdict on Descend, and the outcome is worked out for the sentence shapes of GrammarFacts only. That every sentence of the grammar is accepted and every other input rejected is not proved. The backtracking shares one list of popped tokens across alternatives and never cuts back the trace, which makes a proof over all inputs costly; no input is known on which the verdict differs from the grammar.
- Panics are modelled two ways. The scanner's panics become `Panic` results. The others become preconditions: GetProcessMethod on an empty alternative or empty `end`, GetFirstSet on an empty alternative, and GetFollowSet on a missing start symbol or missing sets.
- Follow.GetFollowSet: its precondition `Known` asks for a FIRST set for every nonterminal of every alternative. This is stronger than the condition under which the Go code panics, which is a write of a new key into a missing set. `Known` also excludes a missing set that is only read, and a missing set that never receives a key.
- The lexer's `endToken` field is stored but never read, as in the Go code. The scanner's stream always ends with `$`.
- State -1 of `MakeNumber` is unreachable and is not modelled.
- Fixture.FirstOfFixture: the rule table is written out as the map that loading the test text builds. Running AddRules over that text is not proved to produce it.
