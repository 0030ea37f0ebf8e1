# FlowControl in Dafny

FlowControl is a series of fifteen C and C++ attempts at one small program.
Each attempt reads a line-oriented *flow file* of named records:

- `node=NAME` followed by `command=...`;
- `pipe=NAME` followed by `from=...` and `to=...`;
- `concatenate=NAME` followed by `parts=N` and `part_0=...` to `part_{N-1}=...`;
- `stderr=NAME` followed by `from=...`;
- `file=NAME` followed by `name=...`.

It then runs the action named on its command line with fork, exec, pipe and
dup2. This project models each attempt's decision logic, stated in Dafny's
terms:

- how a command line is cut into arguments;
- how the records are read into name-indexed tables, and when reading fails;
- in which order a name is looked up;
- which programs are started, with which standard streams, in which order;
- when a child's status is reported.

Operating-system calls are not modelled. A started program is a `Launch`
value; a pipe is a number; a child's status is a parameter.

Every parser is modelled as a specification function on the remaining lines,
and each one is paired with a loop method whose `ensures` is that function.
Every parser except flow.c's is also checked against one printer,
`Flow.Print`/`Flow.Lines`: printing well-formed records and reading them
back gives the tables `Flow.Build` makes of the records. For dialects that
read only some kinds, the round trip keeps only those kinds. flow.c reads a
layout of its own (a pipe on one line), so `CFlow` has no round trip; its
reader is checked line by line instead (`CFlow.NodeLinesStore`,
`CFlow.PipeLineStores`, `CFlow.PipeFileRuns`).

| file | module | models |
|---|---|---|
| text.dfy | Wrappers, Text | `Option`/`Result`; character classes, prefixes, `std::string::find`, `std::to_string`, `std::stoi` |
| process.dfy | Process | descriptors, launches, plans; the status reports of the mix family, src/mix4.cpp and src/flowc.c |
| flow.dfy | Flow | the records, their tables, the printer, the lookup orders |
| toggle_tokenizer.dfy | ToggleTokenizer | `tokenize_command` of src/mix.cpp, src/mix2.cpp, src/mix4.cpp |
| strict_tokenizer.dfy | StrictTokenizer | `tokenize_command` of flow7.1.cpp |
| quote_join.dfy | QuoteJoin | `tokenize_command` of flow3.cpp, flow4.cpp, flow5.cpp, flow6.cpp, src/flow3.cpp |
| words.dfy | Words | `iss >> token` splitting: flow8.cpp `split`, flow2.cpp and flow.cpp `tokenize_command`, src/flow.cpp |
| strtok.dfy | Strtok | `strtok` on one delimiter; the 19-argument cap of src/flowc.c |
| strict_parser.dfy | StrictParser | `parse_flow_file` of src/mix.cpp, src/mix2.cpp, src/mix4.cpp, flow7.1.cpp |
| lenient_parser.dfy | LenientParser | the readers of flow2.cpp, flow.cpp, flow3.cpp, flow4.cpp, flow5.cpp, flow6.cpp, src/flow3.cpp |
| lenient_main.dfy | LenientMain | their `main` dispatch; flow2.cpp's pipe and concatenation launches |
| key_value_parser.dfy | KeyValueParser | src/flow.cpp `parseFlowFile`, `prepareArgs`, `main` |
| flow8.dfy | Flow8 | flow8.cpp `parseFlowFile`, `executeConcatenation`, `main` |
| mix_plan.dfy | MixPlan | `execute_action` of src/mix.cpp and src/mix2.cpp as a plan |
| mix4_plan.dfy | Mix4Plan | `execute_action` of src/mix4.cpp as a plan |
| chain.dfy | PipeChain | flow7.1.cpp `build_command_chain`, `execute_pipe`'s pipe layout, `main` |
| flowc.dfy | Flowc | src/flowc.c: fixed record arrays, `find_*`, `parse_flow_file`, `execute_action` |
| flow_c.dfy | CFlow | flow.c: node and pipe arrays, `find_node_by_name`, the line loop, target selection |

Where the description of the system and the code disagree, the model follows
the code, as follows.

- flow.cpp names records by the third word of the header line. Its own
  example `node=echo_foo` therefore gets the empty name (see Findings).
- src/flow.cpp reads a concatenation's count as the second word of the
  `parts=` line. `parts=N` is a single word, so the count is never set
  (`KeyValueParser.PrintedCountUndefined`).
- flow.c scans a pipe from one line, `pipe=NAME from=A to=B`. A pipe written
  over three lines leaves both ends uninitialised (`CFlow.PipeHeaderAloneUndefined`).
- flow7.1.cpp reports a name that is reached twice as circular, even when it
  is only shared (`PipeChain.SharedNodeIsCircular`).
- Values flagged as uninitialised in the original are error outcomes here.
  Examples are the part count when `sscanf` fails, and flow.c's name or
  command when the scan fails.

## Model

| member | source | states |
|---|---|---|
| Text.Find | src/flow.cpp:44-46 | the position of the first `c`: the character there is `c` and none before it is; None exactly when `c` is absent |
| Text.AfterKey | flow4.cpp:282-286 | for `key=value` with no `=` in `key`, the first `=` is at `|key|`, the text after it is `value` and the text before it is `key` |
| Text.NatToString | src/mix2.cpp:514 | `std::to_string` of a natural: a non-empty string of digits |
| Text.DigitPrefix | src/flowc.c:151 | the longest run of leading digits: a prefix of the input, all digits, followed by a non-digit or the end |
| Text.DropSpaces | src/mix2.cpp:514 | the leading white space `std::stoi` skips: a suffix of the input that starts with a non-space |
| Text.ReadsBackDecimal | src/mix2.cpp:514 | `stoi(to_string(n)) == n` for every natural `n` |
| Text.NatToStringInjective | src/mix2.cpp:514 | different counts print differently |
| Process.ReportMix4 | src/mix4.cpp:85-94 | a suppressed child is never reported; otherwise a non-zero exit is reported with its code and a signal other than SIGPIPE with its number |
| Process.ReportFlowc | src/flowc.c:254 | src/flowc.c reports only a non-zero exit, with its code |
| Process.MixReportsAllButSigpipe | src/mix.cpp:159-169 | src/mix.cpp and src/mix2.cpp report every status except a clean exit and SIGPIPE |
| Process.SignalsDiffer | src/flowc.c:254 | a signal is reported by the mix family and never by src/flowc.c |
| Process.ExitErrorsAgree | src/mix4.cpp:85-94 | with nothing suppressed, all three report a failing exit with its code |
| Flow.LaterNodeWins | src/mix2.cpp:487 | the last node record with a name decides that node's command |
| Flow.LaterPipeWins | src/mix2.cpp:505 | the last pipe record with a name decides that pipe's ends |
| Flow.PartLines | src/mix2.cpp:516-528 | the printer writes one `part_i=` line per part |
| Flow.PartValue | flow3.cpp:148-154 | the text after the first `=` of a printed part line is the part's name |
| Flow.Resolve | src/mix2.cpp:185-200 | the chosen kind is in the order and holds the name; None exactly when no kind in the order holds it |
| Flow.ResolveFirst | src/mix2.cpp:185-200 | the first kind in the order that holds the name is chosen |
| Flow.NodeShadowsPipe | flow7.1.cpp:304-337 | a name that is both a node and a pipe runs as the node in the mix family and as the pipe in flow7.1.cpp |
| Flow.FileNodeLast | src/mix2.cpp:196-200 | a file node is chosen only when no other kind has the name |
| ToggleTokenizer.TokenizeCommand | src/mix4.cpp:102-131 | the character loop computes `Tokens` |
| ToggleTokenizer.NoEmptyToken | src/mix4.cpp:117-129 | no token is empty |
| ToggleTokenizer.RunPlain | src/mix4.cpp:117-124 | characters that are neither quotes nor white space only grow the current token |
| ToggleTokenizer.RunInSingle | src/mix4.cpp:108-124 | inside a single-quoted span every character except `'` is kept, white space and `"` included |
| ToggleTokenizer.RunInDouble | src/mix4.cpp:108-124 | inside a double-quoted span every character except `"` is kept |
| ToggleTokenizer.TokensKeepContent | src/mix4.cpp:108-131 | the tokens laid end to end are the line without its span-delimiting quotes and unquoted white space |
| ToggleTokenizer.SingleQuotedSpanGlues | src/mix2.cpp:72-92 | `a'b'c` over plain `a`, `c` and quote-free `b` is the one token `abc`, or nothing when all three are empty |
| ToggleTokenizer.DoubleQuotedSpanGlues | src/mix2.cpp:72-92 | the same for a double-quoted span |
| ToggleTokenizer.GlueExamples | src/mix2.cpp:72-92 | `a'b c'd` is `ab cd`; `''` and `""` alone yield no token |
| ToggleTokenizer.UnterminatedQuoteJoinsRest | src/mix4.cpp:117-129 | an unterminated quote is not an error: the rest of the line joins the last token |
| ToggleTokenizer.PlainRoundTrip | src/mix.cpp:70-102 | plain words joined by single spaces tokenise back to themselves |
| ToggleTokenizer.QuoteAll | src/mix.cpp:70-102 | each argument wrapped in single quotes, in order |
| ToggleTokenizer.QuotedRoundTrip | src/mix.cpp:70-102 | non-empty arguments without `'`, each single-quoted and joined by spaces, tokenise back to the arguments |
| ToggleTokenizer.ToggleSpacedQuote | myrun.py:13 | `echo 'f o o'` gives `echo` and `f o o` |
| ToggleTokenizer.ScriptSingleQuotedWord | myrun.py:11 | `echo 'foo'` gives `echo` and `foo` |
| ToggleTokenizer.ScriptDoubleQuotedWord | myrun.py:12 | `echo "foo"` gives `echo` and `foo` |
| StrictTokenizer.TokenizeCommand | flow7.1.cpp:31-76 | the character loop computes `Tokenize`, including its mismatched-quote error |
| StrictTokenizer.NoEmptyToken | flow7.1.cpp:56-66 | only non-empty tokens are emitted |
| StrictTokenizer.RunInQuote | flow7.1.cpp:49-54 | inside a span only the opening quote closes it; the other quote and white space are kept |
| StrictTokenizer.UnclosedQuoteFails | flow7.1.cpp:70-73 | a line that ends inside a span is the mismatched-quote error |
| StrictTokenizer.QuotedSpanGlues | flow7.1.cpp:41-54 | a quoted span glues to the plain text on both sides into one token; the quotes are dropped |
| StrictTokenizer.AgreesWithToggle | flow7.1.cpp:31-76 | when the line ends outside every span, flow7.1.cpp tokenises it as the mix family does |
| StrictTokenizer.PlainRoundTrip | flow7.1.cpp:31-76 | plain words joined by single spaces tokenise back to themselves |
| StrictTokenizer.QuotedRoundTrip | flow7.1.cpp:31-76 | single-quoted arguments joined by spaces tokenise back to the arguments |
| QuoteJoin.TokenizeCommand | flow4.cpp:33-59 | the word loop computes `Tokens` |
| QuoteJoin.FirstEnding | flow4.cpp:43-46 | the first word ending with the quote, or None when no word does |
| QuoteJoin.GlueQuoted | flow4.cpp:39-53 | the inner loop stops at the first word at which the glued text ends with the quote and is longer than one character; None when no word closes the span |
| QuoteJoin.UnquotedPassThrough | flow4.cpp:54-56 | words that do not start with a quote pass through unchanged |
| QuoteJoin.EmptyQuotedArgument | flow6.cpp:40-50 | a word `""` or `''` yields an empty argument |
| QuoteJoin.UnclosedQuoteDropsRest | flow4.cpp:45-48 | an unclosed quote drops the partial argument and returns the arguments gathered before it |
| QuoteJoin.PrefixThenRest | src/flow3.cpp:51-54 | plain words ahead of the rest are kept verbatim ahead of the rest's arguments |
| QuoteJoin.PlainRoundTrip | flow3.cpp:39-59 | plain words joined by single spaces tokenise back to themselves |
| QuoteJoin.WrapJoins | src/flow3.cpp:34-50 | the words of a quoted argument glue back to the words joined by single spaces, without the outer quotes |
| QuoteJoin.QuotedSpanCollapses | flow5.cpp:36-51 | a quoted argument with any white space between its words reads back with single spaces |
| QuoteJoin.JoinSpacedQuote | myrun.py:13 | `echo 'f o o'` gives `echo` and `f o o` |
| Words.Split | flow8.cpp:22-30 | the extraction loop computes `Words` |
| Words.WordsAreWords | flow8.cpp:22-30 | every word is non-empty and free of white space |
| Words.WordsKeepContent | flow2.cpp:35-43 | the words laid end to end are exactly the non-space characters |
| Words.JoinRoundTrip | flow.cpp:45-53 | words separated by any non-empty run of white space are read back as they were |
| Words.PlainRoundTrip | flow8.cpp:22-30 | plain words joined by single spaces split back to themselves |
| Words.AgreesWithToggleWithoutQuotes | src/mix.cpp:70-102 | on text without quotes, the mix family's tokeniser is this split |
| Strtok.Split | src/flowc.c:120-125 | the `strtok` loop computes `Fields` |
| Strtok.FieldsAreFields | flow.c:66-72 | no field is empty and none holds the delimiter: runs of delimiters separate like one |
| Strtok.JoinRoundTrip | flow.c:66-72 | non-empty fields joined by single delimiters are cut back into the same fields |
| Strtok.CappedArgs | src/flowc.c:120-125 | at most 19 arguments: the first fields of the command, all of them when there are 19 or fewer and exactly 19 otherwise |
| Strtok.TokenizeCommand | src/flowc.c:120-125 | the capped argument loop computes `CappedArgs` |
| StrictParser.ReadParts | src/mix2.cpp:518-528 | a successful part read consumes one line per missing part and yields that many parts |
| StrictParser.NodeRecord | src/mix2.cpp:475-487 | a node record takes its header and command lines, or fails |
| StrictParser.PipeRecord | src/mix2.cpp:488-505 | a pipe record takes its header, `from=` and `to=` lines, or fails |
| StrictParser.ConcatRecord | src/mix2.cpp:506-530 | a concatenation takes its header, count and part lines, or fails |
| StrictParser.CaptureRecord | src/mix2.cpp:531-546 | a stderr capture takes its header and `from=` line, or fails |
| StrictParser.FileRecord | src/mix2.cpp:547-559 | a file node takes its header and `name=` line, or fails |
| StrictParser.Record | src/mix2.cpp:472-561 | one turn of the line loop takes at least one line, chosen by the first line's prefix |
| StrictParser.ReadPartLines | src/mix2.cpp:518-528 | the part loop computes `ReadParts` |
| StrictParser.ReadNode | src/mix2.cpp:475-487 | the node branch computes `NodeRecord` |
| StrictParser.ReadPipe | src/mix2.cpp:488-505 | the pipe branch computes `PipeRecord` |
| StrictParser.ReadConcat | src/mix2.cpp:506-530 | the concatenation branch computes `ConcatRecord` |
| StrictParser.ReadCapture | src/mix2.cpp:531-546 | the stderr branch computes `CaptureRecord` |
| StrictParser.ReadFile | src/mix2.cpp:547-559 | the file branch computes `FileRecord` |
| StrictParser.ReadRecord | src/mix2.cpp:472-561 | the branch on the header line computes `Record` |
| StrictParser.NextRecord | src/mix2.cpp:472-561 | after one loop turn, its error is the parse's error, otherwise the parse continues after the lines it took |
| StrictParser.ReadLines | src/mix2.cpp:471-562 | the line loop, from the first line with empty tables, ends with the parse of the whole file |
| StrictParser.ParseFlowFile | src/mix2.cpp:463-563 | the line loop computes `Parse` |
| StrictParser.SkipPartLines | flow7.1.cpp:273-285 | flow7.1.cpp passes over part lines |
| StrictParser.RoundTrip | src/mix2.cpp:463-563 | printed well-formed records read back as the tables they describe, keeping the kinds the dialect reads |
| StrictParser.LastNodeKept | src/mix2.cpp:487 | of two node records with the same name, the later one is kept |
| StrictParser.NodeNeedsCommand | src/mix2.cpp:479-482 | a node header not followed by a `command=` line is fatal |
| StrictParser.PipeNeedsEnds | src/mix2.cpp:492-499 | a pipe header without a `from=` line, then a `to=` line, is fatal |
| StrictParser.CountMustBeNumber | src/mix2.cpp:514 | a part count that `std::stoi` cannot read is fatal |
| StrictParser.CountLine | src/mix2.cpp:511-514 | the printed count line reads back as the count |
| StrictParser.ConcatPartsFail | src/mix2.cpp:518-528 | a concatenation whose part lines fail fails with the part reader's error |
| StrictParser.TooFewParts | src/mix2.cpp:516-521 | fewer part lines than the count is fatal |
| StrictParser.PartsInOrder | src/mix2.cpp:516-526 | after a record list, a concatenation whose part lines stop or go out of order before the announced count is fatal, naming the first missing number |
| StrictParser.ReadPartsAccepts | src/mix2.cpp:516-528 | the part loop succeeds exactly when the next lines start with `part_i=`, `part_{i+1}=` and so on up to the count |
| StrictParser.ReadPartsValues | src/mix2.cpp:516-528 | the part loop appends each line's value after its own `part_i=` prefix, in the order of the lines |
| StrictParser.StoredPartsInOrder | src/mix2.cpp:506-530 | an accepted concatenation stores, under its name, exactly one part per announced line `part_0=` to `part_{N-1}=`, in that order, and changes nothing else |
| StrictParser.UnclosedQuote | flow7.1.cpp:214-225 | an unclosed quote in a command is fatal in flow7.1.cpp and tolerated in the mix family |
| StrictParser.CaptureHeaderForms | src/mix2.cpp:531-536 | a stderr record's name is the text after `stderr` with at most one leading `=` removed |
| LenientParser.Parts | flow4.cpp:312-320 | `k` parts, each the text after the first `=` of its line |
| LenientParser.NodeRecord | flow4.cpp:244-269 | a node record takes its header and the next line |
| LenientParser.PipeRecord | flow4.cpp:271-295 | a pipe record takes its header and the next two lines |
| LenientParser.ConcatRecord | flow4.cpp:297-325 | a concatenation takes its header, count and part lines, or fails on an unreadable count |
| LenientParser.Record | flow4.cpp:327-339 | one turn of the line loop takes at least one line; a header at position 0 decides the record |
| LenientParser.ReadName | flow.cpp:61-63 | the record name as the dialect reads it from the header |
| LenientParser.ReadNode | flow4.cpp:244-269 | `parse_node` computes `NodeRecord` |
| LenientParser.ReadPipe | flow4.cpp:271-295 | `parse_pipe` computes `PipeRecord` |
| LenientParser.ReadParts | flow4.cpp:312-320 | the part loop computes `Parts` |
| LenientParser.ReadConcat | flow4.cpp:297-325 | `parse_concatenation` computes `ConcatRecord` |
| LenientParser.ReadRecord | flow4.cpp:327-339 | the branch on the header line computes `Record` |
| LenientParser.NextRecord | flow4.cpp:327-339 | after one loop turn, its error is the parse's error, otherwise the parse continues after the lines it took |
| LenientParser.ReadLines | flow4.cpp:327-339 | the getline loop, from the first line with empty tables, ends with the parse of the whole file |
| LenientParser.ParseFlowFile | flow4.cpp:327-339 | the getline loop computes `Parse` |
| LenientParser.SkipLine | flow4.cpp:330-337 | a line that starts with no header the dialect reads is passed over |
| LenientParser.SkipPartLines | flow5.cpp:185-249 | flow5.cpp and its kin pass over part lines |
| LenientParser.SkipTwo | flow4.cpp:330-337 | stderr-capture and file records are not read: their lines are passed over |
| LenientParser.RoundTrip | flow4.cpp:244-339 | printed well-formed records read back as the tables of the kinds the dialect reads |
| LenientParser.CommandPrefixOptional | flow4.cpp:257-260 | `command=` is stripped only when present: a bare command line reads the same |
| LenientParser.PipeEnds | flow4.cpp:282-286 | pipe ends are the text after the first `=` of the next two lines, or the whole line without `=` |
| LenientParser.TruncatedNodeAndPipe | flow3.cpp:113-117 | a node or pipe cut off by the end of the file reads its missing lines as empty |
| LenientParser.PartsPastEnd | flow3.cpp:148-154 | parts past the end of the file are empty names |
| LenientParser.TruncatedConcat | flow3.cpp:148-154 | announced parts missing at the end of the file are stored as empty names |
| LenientParser.UnreadableCount | flow4.cpp:310 | a count line `sscanf` cannot match leaves the count undefined, which is an error |
| LenientParser.NodeAndPipeNeverFail | src/flow3.cpp:189-195 | a dialect without concatenations never fails: every file is read |
| LenientParser.FlowCppLosesNames | flow.cpp:61-63 | flow.cpp stores a printed node under its header's third word, which is empty |
| LenientParser.FlowCppEchoFoo | flow.cpp:61-63 | flow.cpp's own example `node=echo_foo` is stored under the empty name |
| LenientParser.FlowCppIntendedRoundTrip | flow.cpp:57-123 | read with the name after `=`, flow.cpp's files give back the nodes, pipes and concatenations they describe |
| LenientMain.Main | flow4.cpp:358-367 | a chosen action is in the program's order and its table holds the target |
| LenientMain.PipeFirst | flow2.cpp:228-237 | in every lenient program a pipe name runs as the pipe |
| LenientMain.ConcatSecond | flow.cpp:223-229 | flow2.cpp, flow.cpp and flow4.cpp run a concatenation that is not a pipe |
| LenientMain.PipesOnly | flow6.cpp:267-274 | flow5.cpp, flow6.cpp and src/flow3.cpp reject exactly the targets that are not pipes, nodes included |
| LenientMain.UnknownIff | flow5.cpp:269-276 | the target is unknown, exit 1, exactly when no table tried holds it |
| LenientMain.Part | flow2.cpp:193-202 | a part adds at most one pipe |
| LenientMain.ConcatPlan | flow2.cpp:191-203 | a concatenation creates at most one pipe per part |
| LenientMain.ExecuteConcatenation | flow2.cpp:191-203 | the part loop computes `ConcatPlan` |
| LenientMain.Flow2RunsChosen | flow2.cpp:228-237 | flow2.cpp starts processes exactly when the dispatch chooses an action, and fails with the dispatch's outcome otherwise |
| LenientMain.PipePartFirst | flow2.cpp:193-202 | a part that is both a pipe and a node runs as the pipe |
| LenientMain.SkipsUnknown | flow2.cpp:193-202 | a part that is neither is skipped silently |
| LenientMain.ConcatOfNodes | flow2.cpp:191-203 | a concatenation of nodes runs every part in order, on the terminal, with no pipe |
| LenientMain.PipesNumbered | flow2.cpp:156-187 | each pipe part gets a fresh pipe, written by `from` and read by `to` |
| KeyValueParser.KeyValue | src/flow.cpp:44-46 | a line has a key and a value exactly when it has an `=` before its last character; the key holds no `=` and the value is not empty |
| KeyValueParser.PartNames | src/flow.cpp:84-90 | one part name per announced part |
| KeyValueParser.ConcatRecord | src/flow.cpp:79-91 | a concatenation takes its header, count and part lines |
| KeyValueParser.Record | src/flow.cpp:39-93 | one getline turn takes at least one line |
| KeyValueParser.ReadNode | src/flow.cpp:50-59 | the command's first word is the program and the other words are its arguments |
| KeyValueParser.ReadPartNames | src/flow.cpp:84-90 | the part loop computes `PartNames` |
| KeyValueParser.ReadConcat | src/flow.cpp:79-91 | the concatenation branch computes `ConcatRecord` |
| KeyValueParser.ReadRecord | src/flow.cpp:39-93 | the branch on the line's key computes `Record` |
| KeyValueParser.NextRecord | src/flow.cpp:39-93 | after one loop turn, its error is the parse's error, otherwise the parse continues after the lines it took |
| KeyValueParser.ReadLines | src/flow.cpp:39-94 | the getline loop, from the first line in the empty state, ends with the parse of the whole file |
| KeyValueParser.ParseFlowFile | src/flow.cpp:31-95 | the getline loop computes `Parse` |
| KeyValueParser.PrepareArgs | src/flow.cpp:98-108 | the program, its arguments in order, then `NULL` |
| KeyValueParser.NodeArgv | src/flow.cpp:50-59 | a command line with at least one word runs as exactly its words |
| KeyValueParser.SkippedLines | src/flow.cpp:40-46 | empty and space-only lines, and lines with no value, are skipped |
| KeyValueParser.NodeKey | src/flow.cpp:47-48 | any key starting with `node` makes its value the pending node |
| KeyValueParser.CommandKey | src/flow.cpp:49-61 | a `command` line binds to the pending node and clears it; with none pending it is ignored |
| KeyValueParser.ReadPipeBack | src/flow.cpp:62-78 | a pipe's ends are the text after the first `=` of the next two lines |
| KeyValueParser.OtherKey | src/flow.cpp:47-91 | a line whose key the reader does not act on changes nothing |
| KeyValueParser.RoundTrip | src/flow.cpp:31-95 | printed records without concatenations read back as their nodes and pipes |
| KeyValueParser.PrintedCountLine | src/flow.cpp:83 | `parts=N` is one word, so no count can be read from it |
| KeyValueParser.ConcatHeaderStops | src/flow.cpp:81-85 | a printed concatenation stops the parse with an undefined count |
| KeyValueParser.PrintedCountUndefined | src/flow.cpp:81-85 | after any printed records, a printed concatenation stops the parse with an undefined count |
| KeyValueParser.SpacedCount | src/flow.cpp:83 | a count written as the second word of its line is read |
| KeyValueParser.Target | src/flow.cpp:231-238 | a pipe runs before a concatenation; None, exit 1, exactly when the action is neither |
| Flow8.ReadLine | flow8.cpp:46-76 | the body of the line loop computes `Step` |
| Flow8.ParseFlowFile | flow8.cpp:35-79 | the line loop computes `Parse` |
| Flow8.CommandNeedsNode | flow8.cpp:51-57 | `command=` with no pending node makes parsing fail |
| Flow8.CommandBindsNode | flow8.cpp:51-57 | otherwise the command is bound to the pending node, which is then cleared |
| Flow8.ConcatenateResets | flow8.cpp:58-62 | `concatenate=` starts an empty part list, replacing any earlier one, and makes it current |
| Flow8.CountIgnored | flow8.cpp:58-62 | `parts=` lines are ignored |
| Flow8.PartLine | flow8.cpp:63-75 | a `part_` line appends the text after its first `=` to the current concatenation, and fails with no current one or no `=` |
| Flow8.Ignored | flow8.cpp:41-76 | a line that starts with no key flow8.cpp reads leaves the state alone |
| Flow8.IgnoredByLetter | flow8.cpp:41-76 | pipe, stderr-capture and file lines are ignored |
| Flow8.AfterAllMaps | flow8.cpp:35-79 | the maps after reading printed records are their tables, commands as text |
| Flow8.RoundTrip | flow8.cpp:35-79 | printed nodes and concatenations read back, each command as its words joined by spaces |
| Flow8.RunsStoredArgv | flow8.cpp:84-117 | the words of a stored command are the node's arguments |
| Flow8.ExecuteConcatenation | flow8.cpp:122-150 | the part loop computes `Concat` |
| Flow8.PartsAppend | flow8.cpp:129-143 | running `ps + qs` runs `ps`, then `qs` unless `ps` failed |
| Flow8.FirstFailureStops | flow8.cpp:129-143 | the first failing part ends the run with its status; later parts do not run |
| Flow8.NodesInOrder | flow8.cpp:129-143 | nodes that all succeed run in declaration order and the concatenation succeeds |
| Flow8.ConcatEdges | flow8.cpp:123-127 | an unknown concatenation gives -1; one with no parts gives 0 and runs nothing |
| Flow8.UnknownPartStops | flow8.cpp:137-141 | an unknown part after successful ones stops the run with -1 |
| Flow8.SelfFirstNeverEnds | flow8.cpp:131-136 | a concatenation whose first part is itself never finishes |
| Flow8.ConcatFuel | flow8.cpp:122-150 | a run that finishes gives the same outcome with more fuel |
| Flow8.MainExit | flow8.cpp:170-186 | the exit status is success exactly when the chosen action gives status 0 |
| Flow8.ConcatBeforeNode | flow8.cpp:170-180 | a name that is both runs as the concatenation |
| MixPlan.NodeLaunch | src/mix2.cpp:122-165 | a node runs with the caller's streams, and its failures are always reported |
| MixPlan.FileLaunch | src/mix2.cpp:409-458 | a file node runs `cat` reading the file, with the caller's output and standard error, and is never reported |
| MixPlan.Act | src/mix2.cpp:185-200 | running an action only creates pipes |
| MixPlan.PipePlan | src/mix2.cpp:206-362 | running a pipe only creates pipes |
| MixPlan.Parts | src/mix2.cpp:167-183 | running the parts only creates pipes |
| MixPlan.PipeOfNodes | src/mix2.cpp:302-360 | a pipe of two nodes forks its `to` side, reading pipe `k`, before its `from` side, writing it |
| MixPlan.BothFileEnds | src/mix2.cpp:216-222 | a pipe between two file nodes is fatal before anything is opened or forked |
| MixPlan.FileEnds | src/mix2.cpp:224-300 | a file end replaces the pipe: the other side reads or writes the file |
| MixPlan.FileNodeUnreported | src/mix2.cpp:409-458 | a file node used as an action starts exactly one quiet `cat` on the file, so not every launch of src/mix2.cpp is reported |
| MixPlan.CaptureOfNode | src/mix2.cpp:364-407 | a captured node runs with its standard error pointed at the incoming standard output |
| MixPlan.MixKeepsErrors | src/mix.cpp:127-284 | in src/mix.cpp every launch keeps the caller's standard error and is reported |
| MixPlan.MixStoresNoCaptures | src/mix.cpp:301-358 | src/mix.cpp never stores a stderr capture or a file node |
| MixPlan.OrdersAgree | src/mix.cpp:202-212 | with no captures and no file nodes, the three-kind and five-kind lookups agree |
| MixPlan.MixAgrees | src/mix.cpp:202-212 | on such tables src/mix.cpp runs every action as src/mix2.cpp does |
| MixPlan.MixRunsAsMix2 | src/mix.cpp:365-382 | whatever src/mix.cpp reads, it runs as src/mix2.cpp would run the same tables |
| Mix4Plan.Command | src/mix4.cpp:46-94 | a leaf runs with the given descriptors, inherits standard error, and carries the suppress flag |
| Mix4Plan.Act | src/mix4.cpp:137-246 | running an action only creates pipes |
| Mix4Plan.PipePlan | src/mix4.cpp:141-198 | running a pipe only creates pipes |
| Mix4Plan.Parts | src/mix4.cpp:199-203 | running the parts only creates pipes |
| Mix4Plan.CapturePlan | src/mix4.cpp:204-231 | running a capture only creates pipes |
| Mix4Plan.FromFileEnd | src/mix4.cpp:153-162 | a `from` file node: `to` runs in this process on the opened file, with the caller's output and flag |
| Mix4Plan.ToFileEnd | src/mix4.cpp:163-172 | a `to` file node: `from` runs with the caller's input and the created file as output |
| Mix4Plan.BothFileEnds | src/mix4.cpp:145-151 | two file ends are fatal before anything is opened |
| Mix4Plan.RegularPipe | src/mix4.cpp:173-197 | `from` gets the caller's input and the write end, `to` the read end and the caller's output, both with the caller's flag |
| Mix4Plan.PipeOfNodes | src/mix4.cpp:173-197 | the same for two nodes, written out |
| Mix4Plan.PartsOfNodes | src/mix4.cpp:199-203 | a concatenation of nodes runs them in order, each with the concatenation's descriptors and flag |
| Mix4Plan.CaptureRunsInside | src/mix4.cpp:204-231 | a capture runs its action silenced, with output and errors on a pipe, then `cat` copies the pipe to the caller's output |
| Mix4Plan.SuppressReachesLeaves | src/mix4.cpp:224 | under a silenced action, every leaf is silenced |
| Mix4Plan.CapturedFailuresSilent | src/mix4.cpp:85-94 | no failure of a leaf inside a capture is reported |
| Mix4Plan.TopLevelNode | src/mix4.cpp:355-368 | at the top level a node runs on the terminal, not silenced |
| PipeChain.Chain | flow7.1.cpp:107-123 | the walk marks the name visited, keeps the leaves so far and appends at least one node |
| PipeChain.Flatten | flow7.1.cpp:107-123 | a reference walk without the visited set: it starts with the name itself, and lists only nodes' vectors and names that are nodes or pipes |
| PipeChain.FreshMeans | flow7.1.cpp:108-113 | meeting names in order without meeting one already visited is the same as no name occurring twice and none visited before |
| PipeChain.ChainFlattens | flow7.1.cpp:107-123 | where no name is met twice, the walk appends exactly `Flatten`'s nodes in order and visits exactly its names |
| PipeChain.ChainReachedTwice | flow7.1.cpp:108-112 | where `Flatten` meets a name twice or one already visited, the walk stops with a circular dependency |
| PipeChain.ChainFailsWithFlatten | flow7.1.cpp:119-122 | where `Flatten` fails the walk fails too, and a pipe inside itself is circular for both |
| PipeChain.ChainIsFlatten | flow7.1.cpp:107-123 | the walk succeeds exactly when `Flatten` does and meets no name twice, and then collects `Flatten`'s nodes |
| PipeChain.PipeLeavesFlatten | flow7.1.cpp:125-127 | a pipe's leaves are its `from` side's flattened nodes then its `to` side's, exactly when no name is met twice across both |
| PipeChain.RepeatedNameIsCircular | flow7.1.cpp:108-112 | any name `Flatten` meets at two positions makes the walk circular |
| PipeChain.PipeRepeatedNameIsCircular | flow7.1.cpp:108-112 | any name met at two positions across a pipe's two sides makes the pipe circular |
| PipeChain.ChainBuilder.Build | flow7.1.cpp:107-123 | the recursive method computes `Chain` and updates the visited set and the vector |
| PipeChain.Layout | flow7.1.cpp:133-166 | one launch per leaf |
| PipeChain.ForkChain | flow7.1.cpp:133-171 | the fork loop starts the chain `Layout` describes |
| PipeChain.ChainConnected | flow7.1.cpp:133-166 | leaf i writes pipe i and leaf i+1 reads it; the first keeps stdin, the last keeps stdout |
| PipeChain.ExecutePipe | flow7.1.cpp:97-188 | `execute_pipe` computes `PipePlan` |
| PipeChain.PipeHasTwoLeaves | flow7.1.cpp:114-118 | a pipe flattens into at least two nodes |
| PipeChain.PipeOfNodes | flow7.1.cpp:114-118 | a pipe of two nodes flattens into them, `from` first |
| PipeChain.NodeWalk | flow7.1.cpp:119-122 | a node not yet visited is appended and marked |
| PipeChain.SharedNodeIsCircular | flow7.1.cpp:108-112 | a name reached twice is reported circular even when it is only shared |
| PipeChain.SelfPipeIsCircular | flow7.1.cpp:108-112 | a pipe that contains itself is reported circular |
| PipeChain.UnknownNameStops | flow7.1.cpp:119-122 | an unknown name stops the walk |
| PipeChain.TwoNodeChain | flow7.1.cpp:133-166 | a pipe of two nodes runs as two commands joined by pipe 0 |
| PipeChain.PipeBeforeNode | flow7.1.cpp:304-337 | a name that is both runs as the pipe at the top level |
| Flowc.Names | src/flowc.c:347-390 | the names of the entries, in order |
| Flowc.First | src/flowc.c:347-354 | the first index with an equal name, or -1 exactly when none is equal |
| Flowc.FirstIgnoresLater | src/flowc.c:347-354 | entries added later do not change what a lookup finds |
| Flowc.FirstAfterAbsent | src/flowc.c:347-354 | a name is found at its first entry |
| Flowc.FindIn | src/flowc.c:347-354 | the search loop computes `First` over the first `count` entries |
| Flowc.Store.constructor | src/flowc.c:46-60 | the zero-initialised globals hold no entries |
| Flowc.Store.AddNode | src/flowc.c:126 | `nodes[num_nodes++] = node` appends the node and leaves the other arrays alone |
| Flowc.Store.AddPipe | src/flowc.c:142 | appends the pipe and leaves the other arrays alone |
| Flowc.Store.AddConcat | src/flowc.c:165 | appends the concatenation and leaves the other arrays alone |
| Flowc.Store.AddCapture | src/flowc.c:179 | appends the stderr capture and leaves the other arrays alone |
| Flowc.Store.AddFile | src/flowc.c:189 | appends the file node and leaves the other arrays alone |
| Flowc.Store.FindNode | src/flowc.c:347-354 | `find_node` |
| Flowc.Store.FindPipe | src/flowc.c:356-363 | `find_pipe` |
| Flowc.Store.FindConcatenation | src/flowc.c:365-372 | `find_concatenation` |
| Flowc.Store.FindCapture | src/flowc.c:374-381 | `find_stderr_capture` |
| Flowc.Store.FindFileNode | src/flowc.c:383-390 | `find_file_node` |
| Flowc.Store.Lookup | src/flowc.c:195-227 | `execute_action`'s lookups compute `Choose` |
| Flowc.Store.ReadNode | src/flowc.c:111-126 | the node branch computes `NodeLines` and stores what it read |
| Flowc.Store.ReadPipe | src/flowc.c:127-142 | the pipe branch computes `PipeLines` and stores what it read |
| Flowc.Store.ReadConcat | src/flowc.c:143-165 | the concatenation branch computes `ConcatLines` and stores what it read |
| Flowc.Store.ReadCapture | src/flowc.c:166-179 | the stderr branch computes `CaptureLines` and stores what it read |
| Flowc.Store.ReadFile | src/flowc.c:180-189 | the file branch computes `FileNodeLines` and stores what it read |
| Flowc.Store.ReadRecord | src/flowc.c:110-192 | one loop turn takes at least one line; its error is the parse's error, otherwise the parse continues from the stored entries |
| Flowc.Store.ParseLines | src/flowc.c:109-192 | the line loop computes `ParseFrom`, leaving the arrays as read so far |
| Flowc.Store.ParseFlowFile | src/flowc.c:92-193 | one `read`, cut into lines, then the line loop |
| Flowc.RunFlowFile | src/flowc.c:78-90 | `main` computes `Run` |
| Flowc.Buffer | src/flowc.c:100-107 | the text one `read` leaves: a prefix of the file, all of it when it fits |
| Flowc.ReadParts | src/flowc.c:152-164 | one part per missing index, from the lines available |
| Flowc.NodeLines | src/flowc.c:111-126 | a node takes its header and command lines, or fails |
| Flowc.PipeLines | src/flowc.c:127-142 | a pipe takes its header, `from=` and `to=` lines, or fails |
| Flowc.ConcatLines | src/flowc.c:143-165 | a concatenation takes its header, count and part lines, or fails |
| Flowc.CaptureLines | src/flowc.c:166-179 | a capture takes its header and `from=` line, or fails |
| Flowc.FileNodeLines | src/flowc.c:180-190 | a file node takes its header and `name=` line, or fails |
| Flowc.Record | src/flowc.c:111-191 | one turn takes at least one line, chosen by the line's head |
| Flowc.Choose | src/flowc.c:195-227 | the first kind, in order node, pipe, concatenation, capture, file, that knows the name; None exactly when no kind does |
| Flowc.NodeLaunch | src/flowc.c:230-256 | a silenced node also sends its errors to its output |
| Flowc.Act | src/flowc.c:195-227 | running an action only creates pipes |
| Flowc.Parts | src/flowc.c:303-307 | running the parts only creates pipes |
| Flowc.RoundTrip | src/flowc.c:109-192 | printed records read back as the arrays their records fill |
| Flowc.FileRoundTrip | src/flowc.c:92-193 | the same through one buffer of newline-joined lines |
| Flowc.CollectKeepsNodes | src/flowc.c:126 | storing more records keeps the nodes stored so far at the front |
| Flowc.FirstNodeWins | src/flowc.c:347-354 | of two nodes with one name, the first is run |
| Flowc.CaptureHeaderNames | src/flowc.c:166-172 | a capture's name is the text after `stderr=`, or empty without `=` |
| Flowc.PartNeedsEquals | src/flowc.c:158-163 | a part line without `=` is fatal |
| Flowc.ConcatNeedsCount | src/flowc.c:146-150 | a concatenation header without its `parts=` line is fatal |
| Flowc.NodeArgv | src/flowc.c:120-125 | a node's arguments are its command's space-separated fields, at most 19 |
| Flowc.PartsOfNodes | src/flowc.c:303-307 | parts that are nodes run in order with the same streams and flag |
| Flowc.UnknownPartStops | src/flowc.c:224-227 | an unknown part is fatal after the parts before it |
| Flowc.PipeOfNodes | src/flowc.c:259-301 | `from` writes pipe `k` and `to` reads it, both with the caller's flag |
| Flowc.PipeWithUnknownFrom | src/flowc.c:276-282 | an unknown `from` ends only its child: the reading side still runs |
| Flowc.ActCaptured | src/flowc.c:198 | a silenced action runs only silenced leaves |
| Flowc.CaptureRunsInside | src/flowc.c:309-334 | a capture runs its action silenced, with output and errors on a pipe, and `cat` copies it |
| Flowc.FileNodeRunsCat | src/flowc.c:336-345 | a file node runs `cat` on the file, to the caller's output |
| CFlow.Conversion | flow.c:81 | each `%s` matched uses up a word |
| CFlow.NodeRecord | flow.c:50-75 | a node takes at most its header and the next line |
| CFlow.PipeRecord | flow.c:78-86 | a pipe takes its one line |
| CFlow.Record | flow.c:204-213 | one turn takes at least one line |
| CFlow.FirstPipe | flow.c:217-224 | the first pipe with the target at either end, or -1 exactly when none has it |
| CFlow.ExecuteConcatenate | flow.c:186-195 | the loop computes `ConcatLaunches` |
| CFlow.ReadFromGrows | flow.c:31-35 | reading only appends nodes and pipes |
| CFlow.NodeLinesStore | flow.c:50-75 | a node with a one-word name and a command stores the command's `strtok` fields |
| CFlow.NodeAtEndStoresNothing | flow.c:58-61 | a node header on the last line stores nothing |
| CFlow.NodeNeedsEquals | flow.c:55 | `node` not followed by `=` leaves the name uninitialised |
| CFlow.ScanPipeLine | flow.c:81 | the one-line pipe form is scanned into its two ends |
| CFlow.PipeLineStores | flow.c:78-86 | such a line stores the pipe |
| CFlow.PipeFileRuns | flow.c:198-238 | two nodes and a one-line pipe between them run the writer, then the reader |
| CFlow.PipeHeaderAloneUndefined | flow.c:81 | a pipe whose ends follow on lines of their own is never scanned |
| CFlow.FirstNodeWins | flow.c:38-48 | a duplicated node name resolves to its first definition |
| CFlow.PipeOfNodes | flow.c:127-183 | `from` writes the pipe and `to` reads it |
| CFlow.PipeWithUnknownEnd | flow.c:127-183 | an end that is not a node starts nothing |
| CFlow.NodeParts | flow.c:186-195 | the parts that name nodes, in order |
| CFlow.ConcatRunsNodeParts | flow.c:186-195 | a concatenation runs exactly its node parts, in order |
| CFlow.ConcatOfNodes | flow.c:186-195 | when every part is a node, every part runs |
| CFlow.ConcatSkipsUnknown | flow.c:186-195 | parts that are not nodes are skipped without stopping the run |
| CFlow.NotFoundIff | flow.c:217-238 | the target is missing exactly when no pipe has it at an end and no concatenation has its name |
| CFlow.PipeAndConcatBothRun | flow.c:217-238 | a target that is a pipe end and a concatenation runs both, the pipe first |
| CFlow.FlowFile.FindNodeByName | flow.c:38-48 | `find_node_by_name` computes `FindNode` |
| CFlow.FlowFile.constructor | flow.c:31-35 | the globals start with no nodes and no pipes |
| CFlow.FlowFile.ReadNode | flow.c:50-75 | `parse_node` computes `NodeRecord` and stores the node; the pipes are untouched |
| CFlow.FlowFile.ReadPipe | flow.c:78-86 | `parse_pipe` computes `PipeRecord` and stores the pipe; the nodes are untouched |
| CFlow.FlowFile.ReadRecord | flow.c:205-212 | one loop turn computes `Record` and stores what it read |
| CFlow.FlowFile.ReadLines | flow.c:204-213 | the line loop computes `ReadFrom` and leaves the arrays as read |
| CFlow.FlowFile.Execute | flow.c:215-238 | the two searches compute `Select` |
| CFlow.ParseAndExecute | flow.c:198-239 | reading then running computes `Run` |

## Left out

- Operating-system plumbing is not modelled: `fork`, `execvp`, `pipe`, `dup2`, `close`, `waitpid` and `open`, and their failures. Plans name launches and pipes symbolically.
- Concurrency, blocking and wait ordering between processes are not modelled, nor the closes and waits of flow7.1.cpp (169-187). Launch order is modelled; timing is not.
- File reading is not modelled: `ifstream`, `getline`, `fgets` and the open errors. The lines are an input. src/flowc.c's single `read` is modelled as a prefix of the file.
- Debug and error messages: their text is not modelled, only the outcome they signal.
- The different wording src/mix.cpp uses for an unknown part is not captured; it is an unknown action like any other.
- `std::stoi` exceptions, `atoi` of garbage and `sscanf` failures become error outcomes or checked values. Uninitialised memory is an error case, not an arbitrary value.
- `strncpy` truncation of names to their fixed buffers is not modelled.
- Writing past a fixed array is undefined behaviour in C. Here it is a fatal error instead: 100 records of a kind and 10 parts in src/flowc.c, and 100 nodes, pipes or command words in flow.c.
- Flowc.NodeArgv: src/flowc.c stores each node's `command_args` as pointers into the local `buffer` of `parse_flow_file` (99-125). That buffer is gone once the function returns, so the stored arguments dangle when `main` later runs the node. The model keeps the arguments as values, as if the buffer outlived the reader.
- `strtok`'s hidden state is not modelled: in src/flowc.c the inner `strtok` on the command clobbers the outer line scan (109-124). The line scan and the argument scan are separate functions.
- flow.c `parse_concatenate` (89-106) is not modelled, because it reads its parts from standard input and overwrites its own loop index. Concatenations are an input to `CFlow.Run`.
- CFlow.PipeLaunches: does not model flow.c's fall-through child that goes on running after a node is not found (127-183). A missing end simply starts nothing.
- flow.c's `MAX_LEN` line truncation by `fgets` is not modelled.
- src/flow.cpp `executePipe` and `executeConcatenation` (131-215) are not modelled. The latter reads a descriptor that was never created for its first part.
- The execution internals of flow.cpp, flow3.cpp, flow4.cpp, flow5.cpp, flow6.cpp and src/flow3.cpp are not modelled. This covers flow4's temporary pipe chaining, the `capture_output` read loops of flow5 and flow6, flow6's `global_pipe_input`, and src/flow3.cpp's `execute_pipe` (81-126), which forks the `from` and `to` nodes around one pipe. Their reading and target dispatch are modelled.
- NUL bytes in lines and end-of-file characters are not modelled.
- MixPlan.Act: the recursion of the mix family has no cycle check, so it carries a fuel bound. A run that exhausts the fuel ends in `OutOfFuel`; the source would recurse until the stack overflowed.
- Mix4Plan.Act: the same fuel bound as the mix family.
- Flowc.Act: the same fuel bound as the mix family.
- Flow8.ExecuteConcatenation: the same fuel bound; `Flow8.ConcatFuel` shows that the fuel changes only whether a run finishes.
- myrun.py is a test script. It is not modelled; three of its quoting cases are stated as lemmas.

## Findings

| source | as written | input that shows it | evidently intended | confidence | as-written member | corrected member |
|---|---|---|---|---|---|---|
| flow.cpp:61-63 | the record name is the third whitespace word of the header line | `node=echo_foo`, the example in flow.cpp's own comment, is stored under the empty name | the name is the text after `=` of the header | not executed | LenientParser.FlowCppEchoFoo | LenientParser.FlowCppIntendedRoundTrip |
