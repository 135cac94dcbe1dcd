# Verified models of the grammar collection's lexer support code

The repository is a collection of ANTLR grammars. Most of what can go wrong in it is not in the
grammars but in the hand-written support code beside them: lexers that insert virtual tokens,
streams that look ahead on several channels, and state machines that decide how a character is
read. This project models that code in Dafny and proves what it guarantees, over every input and
every run. The generated lexer and parser are an input: a sequence of matched rules, characters or
callbacks.

| files | component |
|---|---|
| HaskellLayout, HaskellProofs, HaskellRuns, HaskellRules, HaskellLexer | the Haskell layout lexer (section 10.3 of the Haskell 2010 Language Report) |
| AvrcpFragments, AvrcpLink, AvrcpQueue | fragmentation, reassembly and command queue of an AVRCP control channel (section 6.8 of the Bluetooth AVRCP specification) |
| GDScriptIndents, GDScriptLexer | the GDScript INDENT/DEDENT lexer (section 2.1.8 of the Python Language Reference) |
| LuaComment | the Lua comment scanner (section 3.1 of the Lua 5.4 Reference Manual) |
| Utf8Stream | the UTF-8 code and cursor of `EncodingInputStream` (section 3 of RFC 3629) |
| CSharpPreprocessor, CSharpInterpolation | the C# preprocessor's condition stack (sections 6.5.3 and 6.5.5 of ECMA-334) and the lexer state for interpolated strings |
| BcplTokenStream | token look-ahead on two channels |
| Antlr4Adaptor | rule tracking of the lexer for ANTLR grammars |
| Wrappers | types that several of these share |

A component has up to three layers. A specification on values says what one step does, with loops
in closed form, or, for the Lua comment, what the result is. Lemmas prove what whole runs keep.
Classes and methods in the source's own form, with its fields, loops and in-place buffers, are
proved equal to the specification. Where the source feeds an object step by step, a driver method
does so over a whole input.

`dafny verify dfyconfig.toml` checks everything.

## What the code does not do

Where a natural property fails, the code is modelled as it is, a lemma shows the failure, and
another says exactly when the property holds.

- Haskell, termination: a line left of the first line's column makes the closing loop run for
  ever (`ShallowLineDiverges`). `StuckExactly` gives the exact condition; a file with a plain
  header never gets stuck if the lexeme that sets its start column stands in column 0
  (`ColumnZeroRuns`). After `module ... where` that is the next lexeme that is not blank, even one
  of a pragma. Without a header, or once a brace has followed it, it is the next one that is
  neither blank, a brace, nor part of a pragma (`StartColumnOfRun`).
- Haskell, nesting counter: that it covers the contexts and, with the flags, gives the depth of the
  braces is kept exactly as long as the run is orderly (`OrderlyExactly`); a layout keyword in a
  pragma before `module` breaks it (`KeywordInPragma`).
- Haskell, balance: a header without a body, a layout keyword followed only by indentation, or a
  context at or left of the start column leave the virtual braces unbalanced (`FileBalance`,
  `HeaderWithoutBody`, `KeywordThenIndent`, `ContextLeftOfStart`).
- Haskell, read-back: the token after a module header is re-created on the default channel, so a
  source word spelled `SEMI`, `VOCURLY` or `VCCURLY` there cannot be told from a virtual token
  (`SourceSurvives`, `MarkerAfterHeaderIsLost`).
- AVRCP: a message that outgrows the reassembly buffer is not reported. The comment at
  cpp/examples/avrc_api.cc:534-535 says that the partial message is; the drop code set at line 592
  prevents it. The model follows the code (`Exchange`).
- AVRCP: a flush frees the command queue. A vendor command that has to wait afterwards, before the
  connection is opened again, has no queue to go to (`FaultExactly`, `FaultAfterFlush`).
- GDScript: a dedent to a level that is not open is accepted silently, and its level is missing
  from the stack (`ConsistentExactly`, `InconsistentDedentIsLost`).
- GDScript: an indented first line that no counting line break follows, with only skipped text at
  the end, delivers EOF before its DEDENT (`IndentedLineLeftOpen`), and nothing else does
  (`FirstEof`).
- C# preprocessor: directives inside a branch that is skipped because an earlier one was taken are
  evaluated as active, and only those (`SkippedBranchSeen`, `SkippedElseActive`).
- ANTLR grammars: an unterminated last option after a `;` in a prequel block, or a `;` in an
  options block of a parser rule, can leave the rule tracker in the wrong state
  (`PrequelExactly`, `ParserRuleOptions`, `ParserRuleMistaken`).

## Model

| member | source | states |
|---|---|---|
| HaskellLayout.Kept | haskell/Java/HaskellBaseLexer.java:301-305 | what the dedent loop leaves: the new top is not right of the line, and every context popped was |
| HaskellLayout.KeptByIn | haskell/Java/HaskellBaseLexer.java:130-144 | `in` closes down to and including the nearest `let`, or everything if there is none |
| HaskellProofs.CloseBlocksKeeps | haskell/Java/HaskellBaseLexer.java:293-313 | after the closing loops nesting counter and context stack agree, and depth and invariant are kept |
| HaskellProofs.StepKeeps | haskell/Java/HaskellBaseLexer.java:185-395 | every lexeme but EOF keeps `nestedLevel >= contexts + pending`, moves the depth of emitted braces exactly with the fields, and closes nothing that is not open |
| HaskellProofs.StepExactly | haskell/Java/HaskellBaseLexer.java:185-395 | a lexeme keeps invariant and depth if and only if it finds the header orderly: no block open when the body starts, no second layout keyword behind a waiting one |
| HaskellProofs.RunInvariant | haskell/Java/HaskellBaseLexer.java:185-395 | over every run: opened minus closed virtual braces is `nestedLevel` minus pending keyword plus implicit module body, and no prefix goes below zero |
| HaskellProofs.OrderlyExactly | haskell/Java/HaskellBaseLexer.java:185-395 | the fields account for the braces after every part of a run if and only if the run is orderly |
| HaskellProofs.EofStep | haskell/Java/HaskellBaseLexer.java:146-179 | EOF processing always ends, and leaves exactly the contexts not right of the start column, less a dangling keyword and a header without body |
| HaskellProofs.FileBalance | haskell/Java/HaskellBaseLexer.java:146-179 | for whole files: the final depth, and exactly when some prefix closes an unopened block |
| HaskellProofs.CompleteFileBalances | haskell/Java/HaskellBaseLexer.java:146-179 | a complete file's virtual braces balance and never go below zero |
| HaskellRuns.PlainHeaderIsOrderly | haskell/Java/HaskellBaseLexer.java:197-219 | every source without `module`, or whose header's only layout keyword is its `where`, meets what the invariant needs throughout |
| HaskellRuns.PlainFileBalances | haskell/Java/HaskellBaseLexer.java:146-219 | a complete file with a plain header has balanced virtual braces |
| HaskellRuns.SourceSurvives | haskell/Java/HaskellBaseLexer.java:379-394 | deleting the virtual tokens gives the source back by kind, text and order, if and only if no marker word follows a module header; for files that end with the end of file, read off the source |
| HaskellRuns.MarkerAfterHeaderIsLost | haskell/Java/HaskellBaseLexer.java:207-218 | after every header and any blanks, a word spelled like a virtual token is lost by the read-back |
| HaskellRuns.StepEofLast | haskell/Java/HaskellBaseLexer.java:387-394 | the EOF token comes from the EOF lexeme only, and after all virtual tokens |
| HaskellRuns.IterateShape | haskell/Java/HaskellBaseLexer.java:301-309 | after any number of iterations of the second closing loop: one context popped by each while contexts and counter last, one block closed by each |
| HaskellRuns.ClosingLoopDiverges | haskell/Java/HaskellBaseLexer.java:301-309 | unless `Closable`, the loop's guard holds after every number of iterations |
| HaskellRuns.ClosingLoopEnds | haskell/Java/HaskellBaseLexer.java:293-313 | if `Closable`, the guard holds for exactly as many iterations as contexts are popped, and stack, counter and queue are then those of the closed form, but for the separator |
| HaskellRuns.StuckExactly | haskell/Java/HaskellBaseLexer.java:278-309 | while the invariant holds a call fails to return exactly on a line left of the start column and of every context |
| HaskellRuns.StartColumnOfRun | haskell/Java/HaskellBaseLexer.java:193-218 | in every run the start column is that of the first lexeme after the header, or outside a header the first that belongs to no pragma |
| HaskellRuns.ColumnZeroRuns | haskell/Java/HaskellBaseLexer.java:193-309 | a source with a plain header whose start column is 0 never gets stuck |
| HaskellRuns.ShallowLineDiverges | haskell/Java/HaskellBaseLexer.java:301-309 | a line left of the first one never returns |
| HaskellRuns.HeaderWithoutBody | haskell/Java/HaskellBaseLexer.java:174-176 | `module` alone has a block closed that was never opened |
| HaskellRuns.KeywordThenIndent | haskell/Java/HaskellBaseLexer.java:252-275 | a keyword followed only by indentation has a block closed that was never opened |
| HaskellRuns.ContextLeftOfStart | haskell/Java/HaskellBaseLexer.java:241-250 | a context at or left of the start column is still open at the end of file |
| HaskellRuns.KeywordInPragma | haskell/Java/HaskellBaseLexer.java:193-218 | a layout keyword in a pragma before `module`: counter and depth part |
| HaskellRules.ContextColumns | haskell/Java/HaskellBaseLexer.java:241-250 | in every orderly run each open context belongs to a lexeme that opened the block of the keyword before it; its column is the width of the line, a tab counting eight, if the lexeme starts one, and the lexeme's column otherwise |
| HaskellRules.Inserted | haskell/Java/HaskellBaseLexer.java:241-373 | read off the source: at the start of a line, after a layout keyword and inside a line, exactly which virtual tokens one more lexeme gets, where they stand, and which contexts are open after it |
| HaskellRules.NextLine | haskell/Java/HaskellBaseLexer.java:278-319 | an ordinary line: nothing in front of it right of the innermost column; at or left of it the ends of the blocks right of it, and SEMI if it meets a column |
| HaskellRules.GapInserted | haskell/Java/HaskellBaseLexer.java:346-394 | line ends and spaces are handed out as they are, hidden, and change no context |
| HaskellRules.EofInserted | haskell/Java/HaskellBaseLexer.java:146-179 | at the end of file: the ends of all blocks but those of contexts not right of the start column, SEMI if that column is met, and the module's own closing brace |
| HaskellRules.RunTold | haskell/Java/HaskellBaseLexer.java:185-395 | in every orderly run the flags are those of the source: whether a keyword waits, explicit braces hide indentation, a line starts, and how wide it is |
| HaskellRules.BodyOfRun | haskell/Java/HaskellBaseLexer.java:193-239 | in every run the module has a block of its own exactly if its body was opened without a brace |
| HaskellLexer.HaskellBaseLexer.constructor | haskell/Java/HaskellBaseLexer.java:69-94 | the fields' initial values |
| HaskellLexer.HaskellBaseLexer.Match | haskell/Java/HaskellBaseLexer.java:96-114 | the lexer actions: indentation count, and the channel of the lexeme |
| HaskellLexer.HaskellBaseLexer.CloseBlocks | haskell/Java/HaskellBaseLexer.java:293-313 | both loops and the separator, equal to the closed form; false exactly where the loop diverges |
| HaskellLexer.HaskellBaseLexer.CloseExcess | haskell/Java/HaskellBaseLexer.java:293-299 | closes one block for each level above the stack |
| HaskellLexer.HaskellBaseLexer.PopDeeper | haskell/Java/HaskellBaseLexer.java:301-309 | pops exactly the contexts right of the line, with the stack as measure |
| HaskellLexer.HaskellBaseLexer.ProcessIN | haskell/Java/HaskellBaseLexer.java:130-144 | the loop over contexts equals the closed form |
| HaskellLexer.HaskellBaseLexer.ProcessEOF | haskell/Java/HaskellBaseLexer.java:146-179 | closing at the start column, and the module's closing brace |
| HaskellLexer.HaskellBaseLexer.ReadHeader | haskell/Java/HaskellBaseLexer.java:193-207 | pragma, `module`, start column, and whether a module body starts |
| HaskellLexer.HaskellBaseLexer.ReadBrace | haskell/Java/HaskellBaseLexer.java:221-239 | an explicit brace cancels a pending keyword and an implicit module body |
| HaskellLexer.HaskellBaseLexer.OpenInlineBlock | haskell/Java/HaskellBaseLexer.java:241-250 | a block on its keyword's line |
| HaskellLexer.HaskellBaseLexer.OpenEmptyBlock | haskell/Java/HaskellBaseLexer.java:252-275 | the end of an explicit block, and an empty block |
| HaskellLexer.HaskellBaseLexer.CloseDedented | haskell/Java/HaskellBaseLexer.java:278-319 | the dedent block, and that it ends exactly when `Closable` |
| HaskellLexer.HaskellBaseLexer.OpenIndentedBlock | haskell/Java/HaskellBaseLexer.java:322-338 | a block on a deeper line |
| HaskellLexer.HaskellBaseLexer.ReadKeyword | haskell/Java/HaskellBaseLexer.java:346-377 | line ends and layout keywords |
| HaskellLexer.HaskellBaseLexer.EndDoBlock | haskell/Java/HaskellBaseLexer.java:363-372 | `where` ends a `do` or `mdo` context, and nothing else |
| HaskellLexer.HaskellBaseLexer.HandOver | haskell/Java/HaskellBaseLexer.java:379-394 | hidden lexemes overtake the queue, others go behind it |
| HaskellLexer.HaskellBaseLexer.NextToken | haskell/Java/HaskellBaseLexer.java:185-395 | one call: the oldest queued token, or the first of those the next lexeme causes |
| HaskellLexer.Tokenize | haskell/Java/HaskellBaseLexer.java:184-395 | pulling tokens up to EOF gives exactly the specified stream, or never returns exactly where it says so |
| AvrcpFragments.Remainder | cpp/examples/avrc_api.cc:260-292 | what is held back is a complete END packet whose parameters are the bytes not yet sent |
| AvrcpFragments.RestCount | cpp/examples/avrc_api.cc:315-335 | the number of continuations is fixed by the length, each taking MAX-VH-MH bytes |
| AvrcpFragments.Receive | cpp/examples/avrc_api.cc:476-571 | the reassembly offset never leaves the buffer |
| AvrcpFragments.RestReassembles | cpp/examples/avrc_api.cc:304-342 | the fragments still to come complete the bytes already assembled |
| AvrcpFragments.RoundTrip | cpp/examples/avrc_api.cc:1183-1214 | splitting any response and reassembling it gives the original bytes as one single packet |
| AvrcpFragments.SinglePacketUnchanged | cpp/examples/avrc_api.cc:556-559 | a response built as a single packet comes back byte for byte |
| AvrcpFragments.AllHeaded | cpp/examples/avrc_api.cc:260-335 | every packet of a split response and the reassembled one: vendor header byte by byte with the response type, the PDU, the packet type of its place, and its own parameter length, most significant byte first, in 16 bits |
| AvrcpFragments.TypeBits | cpp/examples/avrc_api.cc:472 | only the two lowest bits of the type byte count |
| AvrcpFragments.ContinuesAccumulate | cpp/examples/avrc_api.cc:523-567 | over any CONTINUE packets: START packet and all payloads in order, or aborted as soon as they outgrow the buffer |
| AvrcpFragments.EarlierDropped | cpp/examples/avrc_api.cc:475-480 | a SINGLE or START packet drops what is being assembled: the answers from it on do not depend on what came before |
| AvrcpLink.Prepend | cpp/examples/avrc_api.cc:1119-1128 | the header goes in front of the payload, in place |
| AvrcpLink.Target.PrepEndFrag | cpp/examples/avrc_api.cc:260-292 | the in-place header over bytes already sent leaves exactly the remainder |
| AvrcpLink.Target.Fragment | cpp/examples/avrc_api.cc:319-332 | the first MAX bytes with their own type and length |
| AvrcpLink.Target.MsgReq | cpp/examples/avrc_api.cc:1119-1215 | short responses go out whole; long ones as START packet with the remainder held |
| AvrcpLink.Target.SendContinueFrag | cpp/examples/avrc_api.cc:304-342 | the next CONTINUE packet, or the END packet with the hold released |
| AvrcpLink.Target.OnCommand | cpp/examples/avrc_api.cc:353-440 | a command that is not a single packet is rejected and aborts nothing; while fragments wait, a matching continuation advances and every other single command aborts, with the reply the source gives |
| AvrcpLink.Controller.Receive | cpp/examples/avrc_api.cc:452-597 | the buffer in place agrees with the specification for every packet that fits |
| AvrcpLink.AnswerAdvances | cpp/examples/avrc_api.cc:523-567 | assembled plus held bytes stay the response; it is reported if and only if it fits |
| AvrcpLink.Round | cpp/examples/avrc_api.cc:584-604 | one request and its answer on the two real objects |
| AvrcpLink.Exchange | cpp/examples/avrc_api.cc:260-608 | end to end: a response arrives whole after one request per later fragment if it fits, and is aborted otherwise |
| AvrcpQueue.PackRoundTrip | cpp/examples/avrc_api.cc:1235-1236 | label and channel survive packing into `layer_specific` |
| AvrcpQueue.Tried | cpp/examples/avrc_api.cc:165-182 | commands are tried up to and including the first the transport accepts |
| AvrcpQueue.SubmitKeeps | cpp/examples/avrc_api.cc:1222-1252 | submitting keeps order, single delivery, genuine labels, and pending behind a non-empty queue |
| AvrcpQueue.SendNextKeeps | cpp/examples/avrc_api.cc:161-188 | sending the next command, with any send failures, keeps them |
| AvrcpQueue.DiscardKeeps | cpp/examples/avrc_api.cc:115-122 | flushing and re-opening keep them |
| AvrcpQueue.Next | cpp/examples/avrc_api.cc:133-150 | every event keeps the invariant |
| AvrcpQueue.RunsInOrder | cpp/examples/avrc_api.cc:161-188 | over every interleaving: commands wait only behind a pending response; vendor commands go out in order of submission, at most once, with their label |
| AvrcpQueue.NoOvertaking | cpp/examples/avrc_api.cc:1222-1244 | a vendor command handed over directly finds the queue empty |
| AvrcpQueue.PendingExactly | cpp/examples/avrc_api.cc:1241-1249 | a response is pending exactly if a command was taken by the transport and nothing has ended the wait without another one being taken |
| AvrcpQueue.HeldBack | cpp/examples/avrc_api.cc:1222-1249 | while a response is awaited a vendor command hands nothing over and joins the end of the queue; any other command, and any at another time, is handed over at once, and nothing else is |
| AvrcpQueue.NoneLost | cpp/examples/avrc_api.cc:115-188 | the commands handed over and then those waiting are exactly the vendor commands submitted, in order, but for those a flush or opening discarded |
| AvrcpQueue.FreedRun | cpp/examples/avrc_api.cc:115-188 | the queue is missing exactly between a flush and the next opening, and a response is then pending exactly if a command was accepted and nothing ended the wait |
| AvrcpQueue.FaultExactly | cpp/examples/avrc_api.cc:1222-1240 | a command is queued without a queue if and only if a vendor command is submitted after a flush, before a re-opening, behind an unanswered command |
| AvrcpQueue.FaultAfterFlush | cpp/examples/avrc_api.cc:1238-1240 | and after one it happens |
| AvrcpQueue.Connection.constructor | cpp/examples/avrc_api.cc:1011-1018 | a connection opens with an empty queue and the invariant |
| AvrcpQueue.Connection.MsgReq | cpp/examples/avrc_api.cc:1222-1254 | submission, as specified |
| AvrcpQueue.Connection.SendNextVendorCmd | cpp/examples/avrc_api.cc:161-188 | the dequeue loop, as specified |
| AvrcpQueue.Connection.Dequeue | cpp/examples/avrc_api.cc:165-187 | the loop equals the closed form for every pattern of send failures |
| AvrcpQueue.Connection.ProcessTimeout | cpp/examples/avrc_api.cc:133-150 | only a vendor command's timeout looks at the queue |
| AvrcpQueue.Connection.FlushCmdQ | cpp/examples/avrc_api.cc:115-122 | the flush, as specified |
| AvrcpQueue.Connection.Open | cpp/examples/avrc_api.cc:1011-1018 | opening again replaces the queue by an empty one and keeps the invariant |
| AvrcpQueue.Replay | cpp/examples/avrc_api.cc:115-188 | the real object over any interleaving: in order, nothing twice, and where a queue is missing |
| GDScriptIndents.WidthIsExpandedLength | gdscript/Java/GDScriptLexerBase.java:72-94 | the count is the length after left-to-right tab expansion, between the length and eight times it |
| GDScriptIndents.TabAsSpaces | gdscript/Java/GDScriptLexerBase.java:72-94 | replacing any tab by its spaces leaves the count unchanged |
| GDScriptIndents.GetIndentationCount | gdscript/Java/GDScriptLexerBase.java:80-94 | the counting loop computes that length |
| GDScriptIndents.Outer | gdscript/Java/GDScriptLexerBase.java:139-142 | dedenting removes exactly the deeper levels |
| GDScriptIndents.LinesIncreasing | gdscript/Java/GDScriptLexerBase.java:127-143 | after any lines the stack is positive and strictly increasing |
| GDScriptIndents.StackIsOpenLevels | gdscript/Java/GDScriptLexerBase.java:127-143 | after consistent lines the stack is exactly the set of positive widths that no later line is left of |
| GDScriptIndents.InconsistentDedentIsLost | gdscript/Java/GDScriptLexerBase.java:137-143 | a dedent to a level that is not open is open by that definition but not on the stack |
| GDScriptIndents.ConsistentExactly | gdscript/Java/GDScriptLexerBase.java:127-143 | the stack is right after every line if and only if every dedent returns to an open level |
| GDScriptLexer.NextTokenKeeps | gdscript/Java/GDScriptLexerBase.java:27-58 | every call keeps the invariant: balance, last token present, EOF last, queue ahead |
| GDScriptLexer.EveryRun | gdscript/Java/GDScriptLexerBase.java:21-64 | over every run: INDENTs minus DEDENTs emitted is the stack size, no prefix is negative, and `createDedent` never reads a null token |
| GDScriptLexer.EndOfInput | gdscript/Java/GDScriptLexerBase.java:29-48 | entered at the end of input, a call queues one DEDENT per open level before the first EOF |
| GDScriptLexer.FirstEof | gdscript/Java/GDScriptLexerBase.java:27-58 | before the first EOF delivered, INDENTs and DEDENTs differ, by one, if and only if the rules are an indented first line that no counting line break follows, with nothing emitted at the end |
| GDScriptLexer.IndentedLineLeftOpen | gdscript/Java/GDScriptLexerBase.java:122-136 | the one-line exception |
| GDScriptLexer.CallsTrack | gdscript/Java/GDScriptLexerBase.java:100-145 | until the end of input brackets and stack are those of the rules matched, whatever was queued or delivered |
| GDScriptLexer.OpenLevels | gdscript/Java/GDScriptLexerBase.java:100-145 | after any calls with input left the stack is strictly increasing, and exactly the open levels of the line breaks that counted, if their dedents are consistent |
| GDScriptLexer.SilentBreak | gdscript/Java/GDScriptLexerBase.java:114-134 | a newline adds no token and leaves the levels as they are if and only if a bracket is open, a blank or comment line follows, or no token has come before and the width is that of the innermost level |
| GDScriptLexer.SpacesOfNewline | gdscript/Java/GDScriptLexerBase.java:108-110 | the text of a newline without its line ends is what is counted |
| GDScriptLexer.CallsStream | gdscript/Java/GDScriptLexerBase.java:21-64 | over every run: the tokens handed out and queued are exactly what the rules say, read off the rules alone, and at the end of input NEWLINE and one DEDENT for each open level |
| GDScriptLexer.GDScriptLexerBase.CreateDedent | gdscript/Java/GDScriptLexerBase.java:60-64 | needs a last token |
| GDScriptLexer.GDScriptLexerBase.OnNewLine | gdscript/Java/GDScriptLexerBase.java:108-145 | blank lines and brackets emit nothing; other newlines emit what their width says |
| GDScriptLexer.GDScriptLexerBase.StartLine | gdscript/Java/GDScriptLexerBase.java:124-143 | NEWLINE, then INDENT or one DEDENT for each level left |
| GDScriptLexer.GDScriptLexerBase.PopDeeper | gdscript/Java/GDScriptLexerBase.java:139-142 | the dedent loop |
| GDScriptLexer.GDScriptLexerBase.CloseLevels | gdscript/Java/GDScriptLexerBase.java:30-47 | the end-of-input block |
| GDScriptLexer.GDScriptLexerBase.DropEof | gdscript/Java/GDScriptLexerBase.java:31-35 | removes every EOF token from the queue and keeps the rest in order |
| GDScriptLexer.GDScriptLexerBase.NextToken | gdscript/Java/GDScriptLexerBase.java:27-58 | one call, as specified |
| GDScriptLexer.Tokenize | gdscript/Java/GDScriptLexerBase.java:21-64 | pulling tokens reaches an EOF on every input, and gives exactly what the rules emit, what closes the levels unless `FirstEof` leaves one open, and EOF; no prefix has a DEDENT without its INDENT |
| LuaComment.EndUnique | lua/Python3/LuaLexerBase.py:14-26 | the declarative end of a comment is determined by the input |
| LuaComment.LuaLexerBase.SkipSep | lua/Python3/LuaLexerBase.py:46-62 | the result distinguishes long brackets of each level from everything else |
| LuaComment.LuaLexerBase.ReadLongString | lua/Python3/LuaLexerBase.py:28-44 | stops just past the first closing bracket of the same level, overlapping candidates included, or at EOF |
| LuaComment.LuaLexerBase.HandleComment | lua/Python3/LuaLexerBase.py:14-26 | consumes exactly the comment, and ends on every input |
| LuaComment.CommentEnd | lua/Python3/LuaLexerBase.py:14-62 | running the scanner computes the declarative end |
| Utf8Stream.DecodesOne | _scripts/templates/Cpp/EncodingInputStream.cpp:25-57 | an encoded code point is decoded wherever it stands, and exactly its bytes are taken |
| Utf8Stream.TwoByteForm | _scripts/templates/Cpp/EncodingInputStream.cpp:169-173 | the two bytes of the table in RFC 3629, bit by bit |
| Utf8Stream.ThreeByteForm | _scripts/templates/Cpp/EncodingInputStream.cpp:174-179 | the three bytes |
| Utf8Stream.FourByteForm | _scripts/templates/Cpp/EncodingInputStream.cpp:180-186 | the four bytes |
| Utf8Stream.OtherForms | _scripts/templates/Cpp/EncodingInputStream.cpp:165-193 | ASCII stands for itself, and values beyond Unicode are written as U+FFFD |
| Utf8Stream.IllFormed | _scripts/templates/Cpp/EncodingInputStream.cpp:25-57 | an invalid lead byte is taken alone as U+FFFD; missing continuation bytes read as ones; 0 at the end |
| Utf8Stream.RoundTrip | _scripts/templates/Cpp/EncodingInputStream.cpp:157-195 | decoding the encoding of any 32-bit values gives them back, those beyond Unicode as U+FFFD, with no bytes left over |
| Utf8Stream.SlicesJoin | _scripts/templates/Cpp/EncodingInputStream.cpp:157-195 | encoding splits over slices |
| Utf8Stream.EncodingInjective | _scripts/templates/Cpp/EncodingInputStream.cpp:157-195 | distinct sequences of Unicode values have distinct encodings |
| Utf8Stream.EncodeUtf8 | _scripts/templates/Cpp/EncodingInputStream.cpp:157-195 | the loop encodes the slice; out-of-range bounds give nothing |
| Utf8Stream.DecodeStream | _scripts/templates/Cpp/EncodingInputStream.cpp:25-57 | repeated decoding up to the end of the stream |
| Utf8Stream.LookShifts | _scripts/templates/Cpp/EncodingInputStream.cpp:108-123 | moving the cursor shifts look-ahead and look-behind consistently |
| Utf8Stream.LookIs | _scripts/templates/Cpp/EncodingInputStream.cpp:108-123 | `LT(k)` is the k-th character from the cursor on, `LT(-k)` the k-th before it, EOF beyond either end, and 0 for `LT(0)` |
| Utf8Stream.Walk | _scripts/templates/Cpp/EncodingInputStream.cpp:97-123 | on the real stream `LT(1)` is each time the character stepped over, and `LT(-1)` the one stepped over last |
| Utf8Stream.EncodingInputStream.Consume | _scripts/templates/Cpp/EncodingInputStream.cpp:97-106 | one step, refused at the end |
| Utf8Stream.EncodingInputStream.LT | _scripts/templates/Cpp/EncodingInputStream.cpp:108-123 | the character at the given offset, EOF outside the data on either side |
| Utf8Stream.EncodingInputStream.Seek | _scripts/templates/Cpp/EncodingInputStream.cpp:145-155 | the target position or the end, never an error |
| Utf8Stream.EncodingInputStream.GetText | _scripts/templates/Cpp/EncodingInputStream.cpp:197-212 | the encoded interval, cut at the end of the data |
| Utf8Stream.Reread | _scripts/templates/Cpp/EncodingInputStream.cpp:197-212 | the whole text of a stream decodes to its data |
| CSharpPreprocessor.ValueIsMeaning | csharp/CSharp/CSharpPreprocessorParserBase.cs:148-209 | the string-valued evaluator agrees with boolean semantics for every expression |
| CSharpPreprocessor.RunsAsMeant | csharp/CSharp/CSharpPreprocessorParserBase.cs:35-97 | every well-nested run ends, restores the stack, and gives each directive the value its branch structure says |
| CSharpPreprocessor.TailRuns | csharp/CSharp/CSharpPreprocessorParserBase.cs:59-97 | the same for the later branches of a group, up to #endif |
| CSharpPreprocessor.GroupRuns | csharp/CSharp/CSharpPreprocessorParserBase.cs:51-97 | the machine gives `#if`, `#elif` and `#else` the value true exactly if all outer conditions are true, the own condition holds and no earlier one does; it gives a directive directly in a branch true exactly if all outer conditions are true and the own condition or an earlier one holds |
| CSharpPreprocessor.OneBranch | csharp/CSharp/CSharpPreprocessorParserBase.cs:51-89 | of the values the machine gives a group, at most one is true; one is, if and only if all outer conditions are true and some condition holds, as with an `#else` |
| CSharpPreprocessor.SkippedBranchSeen | csharp/CSharp/CSharpPreprocessorParserBase.cs:63-79 | in any branch, any directive directly in it is given the value of the branch, if and only if no earlier branch was taken under true conditions |
| CSharpPreprocessor.SkippedElseActive | csharp/CSharp/CSharpPreprocessorParserBase.cs:75-89 | a directive in an `#else` after a taken `#if` is evaluated as active |
| CSharpPreprocessor.CSharpPreprocessorParserBase.constructor | csharp/CSharp/CSharpPreprocessorParserBase.cs:8-13 | one true condition, and DEBUG defined |
| CSharpPreprocessor.CSharpPreprocessorParserBase.AllConditions | csharp/CSharp/CSharpPreprocessorParserBase.cs:25-33 | true exactly when every entry is |
| CSharpPreprocessor.CSharpPreprocessorParserBase.OnDefine | csharp/CSharp/CSharpPreprocessorParserBase.cs:35-41 | as specified |
| CSharpPreprocessor.CSharpPreprocessorParserBase.OnUndef | csharp/CSharp/CSharpPreprocessorParserBase.cs:43-49 | as specified |
| CSharpPreprocessor.CSharpPreprocessorParserBase.OnOther | csharp/CSharp/CSharpPreprocessorParserBase.cs:99-146 | the directives that only report whether they are active |
| CSharpPreprocessor.CSharpPreprocessorParserBase.OnIf | csharp/CSharp/CSharpPreprocessorParserBase.cs:51-57 | as specified |
| CSharpPreprocessor.CSharpPreprocessorParserBase.OnElif | csharp/CSharp/CSharpPreprocessorParserBase.cs:59-73 | as specified, and where it throws |
| CSharpPreprocessor.CSharpPreprocessorParserBase.OnElse | csharp/CSharp/CSharpPreprocessorParserBase.cs:75-89 | as specified, and where it throws |
| CSharpPreprocessor.CSharpPreprocessorParserBase.OnEndif | csharp/CSharp/CSharpPreprocessorParserBase.cs:91-97 | as specified, with the value of the new top, and where it throws |
| CSharpPreprocessor.Preprocess | csharp/CSharp/CSharpPreprocessorParserBase.cs:8-97 | a whole file of directives gets the specified values, or throws exactly where the specification says |
| CSharpInterpolation.RunAgrees | csharp/CSharp/CSharpLexerBase.cs:28-102 | over every run, well-nested or not: the level is the size of the verbatim stack, and the flag its top |
| CSharpInterpolation.CodeRestores | csharp/CSharp/CSharpLexerBase.cs:28-62 | every well-nested piece of code, to any depth, restores the whole state, and the mode is popped exactly at the braces that close a hole |
| CSharpInterpolation.PartsRestore | csharp/CSharp/CSharpLexerBase.cs:87-102 | the same for the text and holes of a string |
| CSharpInterpolation.CodeSeen | csharp/CSharp/CSharpLexerBase.cs:28-40 | at every event of well-nested code the flag is the kind of the innermost string around it, false outside of strings, and the stack holds the kinds of all strings around it in order |
| CSharpInterpolation.PartsSeen | csharp/CSharp/CSharpLexerBase.cs:87-112 | the same for the text and holes of a string |
| CSharpInterpolation.OutsideStrings | csharp/CSharp/CSharpLexerBase.cs:42-85 | outside of strings neither braces nor colons change anything |
| CSharpInterpolation.CSharpLexerBase.OnOpenBrace | csharp/CSharp/CSharpLexerBase.cs:42-48 | as specified, and where it throws |
| CSharpInterpolation.CSharpLexerBase.OnCloseBrace | csharp/CSharp/CSharpLexerBase.cs:50-62 | as specified, and whether it ended a hole |
| CSharpInterpolation.CSharpLexerBase.Handle | csharp/CSharp/CSharpLexerBase.cs:28-102 | any character in any mode, as specified |
| CSharpInterpolation.Lex | csharp/CSharp/CSharpLexerBase.cs:28-102 | the real object on whole well-nested files: where holes end, and flag and kinds at every event |
| BcplTokenStream.ThereAndBack | bcpl/Java/ChannelCommonTokenStream.java:55-104 | stepping forward k visible tokens and looking back k returns to the start |
| BcplTokenStream.AheadCounts | bcpl/Java/ChannelCommonTokenStream.java:86-103 | `LT(k)` skips exactly k-1 tokens of the two channels, the current one included, or ends at EOF for want of them; `LT(1)` is the current token |
| BcplTokenStream.BehindCounts | bcpl/Java/ChannelCommonTokenStream.java:57-74 | `LB(k)` has exactly k tokens of the two channels from it up to the current one, and there is none only if fewer precede |
| BcplTokenStream.AtRank | bcpl/Java/ChannelCommonTokenStream.java:35-53 | a visible token stands in the filtered list at its rank |
| BcplTokenStream.ChannelCommonTokenStream.PreviousTokenOnChannel | bcpl/Java/ChannelCommonTokenStream.java:16-33 | the last visible token at or before the position, none skipped |
| BcplTokenStream.ChannelCommonTokenStream.NextTokenOnChannel | bcpl/Java/ChannelCommonTokenStream.java:35-53 | the first visible token at or after the position, none skipped |
| BcplTokenStream.ChannelCommonTokenStream.LB | bcpl/Java/ChannelCommonTokenStream.java:55-75 | null exactly when fewer than k visible tokens precede, otherwise the k-th one back |
| BcplTokenStream.ChannelCommonTokenStream.LT | bcpl/Java/ChannelCommonTokenStream.java:77-104 | the k-th element of the filtered list from here on, saturating at EOF |
| Antlr4Adaptor.PrequelExactly | antlr/antlr4/Java/LexerAdaptor.java:87-94 | a prequel block leads back to the top level if and only if it has no `;` or all its options are terminated |
| Antlr4Adaptor.ConstructRuns | antlr/antlr4/Java/LexerAdaptor.java:86-120 | every construct starts and ends outside of rules, and starts character sets exactly where it should |
| Antlr4Adaptor.FileRuns | antlr/antlr4/Java/LexerAdaptor.java:86-120 | over whole grammar files: between constructs the state is invalid, and `[` opens a character set exactly in upper-case rules outside their options |
| Antlr4Adaptor.ParserRuleOptions | antlr/antlr4/Java/LexerAdaptor.java:69-117 | after an options block in a parser rule the tracker is in the rule if and only if there is no `;` or the first identifier after the last one is lower-case; `[` starts a character set if and only if it is upper-case |
| Antlr4Adaptor.ParserRuleMistaken | antlr/antlr4/Java/LexerAdaptor.java:90-117 | a parser rule with a terminated option in which `[` starts a character set |
| Antlr4Adaptor.LexerAdaptor.HandleEndArgument | antlr/antlr4/Java/LexerAdaptor.java:78-83 | the mode returned to at `]` |
| Antlr4Adaptor.Scan | antlr/antlr4/Java/LexerAdaptor.java:69-124 | the real object on whole grammar files |

## Left out

- The generated lexers and parsers and the ANTLR runtime: matched rules, tokens and characters are inputs. What the model takes from the grammars is which kinds are hidden, skipped or push a mode.
- Positions of virtual tokens (haskell/Java/HaskellBaseLexer.java:118-128, gdscript/Java/GDScriptLexerBase.java:60-70, lua/Python3/LuaLexerBase.py:15-16): they steer nothing.
- HaskellRuns.SourceSurvives: compares kind and text, not positions, because virtual and re-created tokens get new ones.
- HaskellProofs.StepKeeps: is stated for lexemes that find the header orderly, the only ones for which it holds (`StepExactly`).
- HaskellProofs.RunInvariant: is stated for orderly runs, the only ones in which it holds (`OrderlyExactly`); `PlainHeaderIsOrderly` gives a condition on the source text.
- HaskellProofs.FileBalance: is stated for orderly runs, because in others the fields do not tell the depth (`OrderlyExactly`).
- HaskellProofs.CompleteFileBalances: is stated for orderly runs for the same reason; `PlainFileBalances` has it on the source text.
- HaskellRules.Inserted: is stated once the start column is set, and where it can be read off the source what is inserted (`Readable`); that leaves out a tab between a layout keyword and the rest of its line, a lexeme inside a line after `in` or `}`, a `let` inside explicit braces in the middle of a line, and lines after a tab or a marker word that is not followed by a visible lexeme.
- HaskellRules.ContextColumns: is stated for orderly runs, like `RunInvariant`.
- AVRCP constants live in headers that are not part of this model: the packet limit and the buffer size are parameters; header sizes, packet types and company identifier are those of the AVRCP specification, and the response type is the low half of its byte. Lengths are unbounded, and only their two-byte fields are reduced to 16 bits.
- AvrcpFragments.Receive: requires that a START packet fits the buffer, because the source copies it unchecked and what an overlong one does is not defined; all other packets may have any length.
- AvrcpLink.Controller.Receive: requires that a START packet fits the buffer, as the source does when it copies it unchecked.
- AvrcpQueue.SendNextKeeps: takes a freed queue for an empty one; the queue library is not part of this model.
- Allocation, timers, tracing, browse and pass-through messages, and the AVCT transport, whose answers are parameters.
- The decision whether a colon starts a format specifier (csharp/CSharp/CSharpLexerBase.cs:64-85): a raw look-ahead that need not stop at the end of input; the model takes it as part of the event.
- Loading of files in `EncodingInputStream` (lines 59-91): it decodes with a library function.
- Utf8Stream.DecodesOne: `decode_utf8_char` does not check continuation bytes and accepts surrogates; the model does the same, and of ill-formed input says only what `IllFormed` does.
- catch and finally clauses after parser rules in grammar files.
- haskell/CSharp/StackQueue.cs: a list used as a queue, settled by reading it.
- The ports of the same classes to other languages, and single-branch predicates of other grammars: they would add only easy members.
