# lmline: a model of its core algorithms

lmline puts a language model behind a shell prompt. This project models the parts of it whose
correctness rests on an argument rather than on a single line: the terminal sanitizer, the output
budgets, the settings hierarchy and its lock, the exchange with a provider, the language server
client, the checks on local commands, the scope tracking of the availability scanner, the credential
sessions, and the fail-closed lint runner.

Loops and objects of the source are methods and classes here; each is proved against a function of
its input or of its old state, and the promises are proved about that function. Protocols with
several processes are state machines over their steps, with theorems over every sequence of steps.
Providers, servers, other processes, clocks and files are parameters or nondeterministic steps.
Numbers are unbounded unless a row says otherwise.

| files | part of lmline |
|---|---|
| `Common`, `Utf8`, `Utf8Cut`, `Decimal` | shared types, UTF-8 by the table of section 4 of RFC 3629, cuts that keep it whole, decimal strings |
| `Sanitizer`, `SanitizerLaws`, `ControlFunctions`, `AnswerDisplay` | the filter between a model answer and the terminal |
| `Condense`, `CondenseLaws`, `CondenseOrder`, `ToolText` | byte-budgeted output and the ring of last lines |
| `Settings`, `ConfigShell`, `ConfigReload`, `ConfigConsent`, `ConfigLoader`, `ConfigLock` | settings files, reload over a disk, consent to project files, and the directory lock |
| `Exchange`, `ExchangeHistory`, `ExchangeStory`, `ExchangeLoop` | posts, the pairing of a history, the history as the replies tell it, tool rounds |
| `Replay`, `WirePairing` | replayed items, and calls and outputs in the Responses form |
| `Streaming`, `StreamLoop`, `ToolDeltas` | streamed answers, streamed rounds, streamed calls |
| `LspFraming`, `LspRequests`, `LspEdit` | framing, request table and edits of the language server client |
| `LocalWords`, `ShellWords` | decoding and judging local command lines, and the quoting rules as a grammar |
| `ScopeScanner`, `ScopeStacks`, `ScopeNames`, `ScopeGrammar` | which function names a candidate line may rely on, and what each token and each command does to them |
| `Credentials`, `PerFileRunner` | sessions on one credential file; the lint runner's report |

## What the proofs found

These are claims that the code does not keep on all inputs. Each is stated with the exact condition
under which it holds, or with the run that breaks it.

- A tool that reads its standard input swallows the calls that still wait, because it inherits the
  file the loop reads: two native calls, the first a `cat`, leave the second unanswered
  (`ExchangeHistory.StandardInputSwallowsCall`). One that stops inside a line leaves a torn call whose
  result answers nobody (`ExchangeHistory.TornCallAnswersNobody`). A response in the text protocol
  that carries native calls as well, a call without an id, and an id that ends in a line feed break
  pairing too. A turn keeps the history paired exactly when none of this happens
  (`ExchangeHistory.TurnKeepsPairing`), and a posted history is paired exactly when that holds of all
  the answers it came from (`ExchangeLoop.ChatRun`, `ExchangeLoop.QuietPairing`).
- When streaming runs out of rounds the collected turn has been stored but is never answered: the
  text that was printed is followed by a buffered request, whose forced answer is asked for with an
  unpaired history (`StreamLoop.HandoverAfterPrint`, exact; `StreamLoop.LimitRepeatsPrinted`;
  `StreamLoop.LimitTurnUnpaired`).
- A loaded file may define the variable that names the settings directory. Unchanged files can then
  load differently every time (`ConfigReload.ReloadAlternates`), and a project file can point to a
  settings file of its own that keeps it read after the user has taken back the consent
  (`ConfigConsent.ProjectRedirectsConsent`). Reload forgets, and project files have no say in
  consent, exactly when that variable still names the same directory
  (`ConfigReload.ReloadIsHistoryIndependent`, `ConfigConsent.ConsentIgnoresProjects`).
- A project file can undo the user's opt-out from project files: it defines the gate key itself, the
  user later writes the same value, and the next load takes that value for its own stamp
  (`ConfigConsent.ProjectUndoesOptOut`, exact condition in `ConfigConsent.ProjectsSwayConsent`).
- The settings file is replaced by `mv` from the directory for temporary files. Between two
  filesystems that is a removal and a copy: a reader can find no file, and a crash leaves none
  (`ConfigLock.ReaderFindsNothing`, `ConfigLock.CrashLeavesNothing`). Readers agree with the
  committed writes in every locked run exactly when there is one filesystem (`ConfigLock.RenameDecides`).
- With a limit of zero lines the tool text still prints its one marker line (`ToolText.WindowSize`).
- A quoted value with a line feed anywhere in it is not what loading its line gives back
  (`Settings.QuotedValueReturns`); the writer refuses such values.
- Rebuilt input items keep the order of the original output exactly when calls that share an id stand
  together (`Replay.ReplayRoundTrip`).
- Skipping the lock on purpose loses updates (`ConfigLock.SkippingLosesUpdates`).
- A completion without a range uses the cursor offset unchecked and can split a surrogate pair
  (`LspEdit.CursorEditWellFormed`).
- After a streamed line was withheld for the byte budget, a later shorter one can still be printed
  (`Streaming.LaterLineStillPrints`); only the byte bound and the truncation flag are promised.

## Model

| member | source | states |
|---|---|---|
| Utf8.WellFormedIffEncoding | lmline/context.bash:1020-1108 | The byte table of RFC 3629 accepts exactly the encodings of sequences of Unicode scalar values |
| Utf8.DecodeAllInverse | lmline/context.bash:1020-1108 | Decoding well-formed bytes and encoding the scalars again gives the bytes back |
| Sanitizer.DecodeUnit | lmline/context.bash:1020-1108 | The decoding branch reads at every offset the longest unit the table allows: a Bidi control, a well-formed sequence, or one byte |
| Sanitizer.DisplayLine | lmline/context.bash:1014-1135 | The loop with its pending slice emits, for every byte line, exactly what a unit-by-unit filter keeps |
| SanitizerLaws.Idempotent | lmline/context.bash:1014-1135 | Sanitizing twice is sanitizing once for every byte line, also where removals bring stray leads and continuations together |
| SanitizerLaws.SafeExactly | lmline/context.bash:1014-1135 | The output holds no C0, DEL, raw or encoded C1 or Bidi control, 80 to 9F occur only inside well-formed sequences; a line is left alone exactly when it already is like that |
| SanitizerLaws.FiltersCharacters | lmline/context.bash:1018-1132 | On encoded text the byte filter keeps or drops each character whole: it is the encoding of a filter on characters |
| SanitizerLaws.Utf8Preserved | lmline/context.bash:1018-1132 | Well-formed UTF-8 stays well-formed |
| SanitizerLaws.RenderedAreVisible | lmline/context.bash:1109-1132 | Every character that is kept is a visible one |
| SanitizerLaws.RenderedInOrder | lmline/context.bash:1109-1132 | What is kept is a subsequence of the text |
| SanitizerLaws.VisibleTextUnchanged | lmline/context.bash:1109-1132 | Text is unchanged exactly when all its characters are visible |
| ControlFunctions.GrammarRenders | lmline/context.bash:1109-1132 | What a text shows is determined by its pieces: characters, escape sequences (ECMA-35), control sequences and control strings (ECMA-48), and a last piece that is cut off; exactly the visible characters are shown |
| ControlFunctions.EveryTextReads | lmline/context.bash:1109-1132 | Every text is such a sequence of pieces, so nothing is left open |
| ControlFunctions.DisplayedIsShown | lmline/context.bash:1018-1132 | The bytes that are displayed of an encoded text are the encoding of what its pieces show |
| AnswerDisplay.EscapeSequenceVanishes | lmline/context.bash:1109-1132 | An escape sequence with any intermediate characters disappears whole, its final character included, and the text on both sides is what it would be alone |
| AnswerDisplay.ControlSequenceVanishes | lmline/context.bash:1109-1132 | So does a control sequence (section 5.4 of ECMA-48), opened by ESC [ or by the C1 control 9B |
| AnswerDisplay.ControlStringVanishes | lmline/context.bash:1109-1132 | So does a control string (section 5.6 of ECMA-48), from any opener to any closer, whatever it carries |
| AnswerDisplay.DisplayAnswer | lmline/context.bash:1002-1136 | The whole answer is displayed line by line, each line sanitized from a fresh state |
| AnswerDisplay.LinesAreIsolated | lmline/context.bash:1002-1136 | An unfinished control string in one line cannot swallow the next line |
| AnswerDisplay.DisplayedLines | lmline/context.bash:1002-1136 | Reading the display back gives the sanitized lines, none merged and none split |
| AnswerDisplay.DisplayIdempotent | lmline/context.bash:1002-1136 | Displaying a displayed answer changes nothing |
| AnswerDisplay.AnswerIsShown | lmline/context.bash:1002-1136 | An answer of lines is shown line by line, and an unfinished last line like a finished one |
| AnswerDisplay.NulDropped | lmline/context.bash:1002-1136 | A NUL anywhere in an answer leaves no trace |
| Utf8Cut.Utf8SafeCut | lmline/context.bash:1179-1188 | The cut loops strip trailing continuations and then one lead from the capped prefix |
| Utf8Cut.CutIsWellFormed | lmline/context.bash:1179-1188 | A cut of well-formed text is well-formed and loses at most the four bytes of one character |
| Utf8Cut.DisplayErrorLine | lmline/context.bash:1141-1160 | Whatever the text: its lines joined by spaces and stripped of trailing blanks; unchanged when that fits, otherwise a whole-character prefix within the cap and three dots; exactly one line end, none for a blank text; well-formed text stays well-formed |
| Utf8Cut.JoinsLines | lmline/context.bash:1141-1160 | A line feed of an error text becomes one space and every other byte stays |
| Condense.Fold | lmline/context.bash:1202-1207 | The reading loop caps lines and folds runs of equal neighbours |
| Condense.TakeHead | lmline/context.bash:1226-1231 | The head is the longest prefix that fits its share, with its cost |
| Condense.TakeTail | lmline/context.bash:1234-1240 | The tail is the longest suffix behind the head that fits its share |
| Condense.Rescue | lmline/context.bash:1241-1249 | The rescued entries are notable ones from the omitted middle, in order, within their share and count |
| Condense.Omitted | lmline/context.bash:1250-1254 | The two counters of the marker are the lines and input bytes of exactly the entries that are not printed |
| Condense.CondenseText | lmline/context.bash:1174-1261 | The whole condenser: everything when it fits, nothing when not even the marker fits, otherwise head, marker, rescued lines and tail, in this order and as planned |
| CondenseLaws.WithinBudget | lmline/context.bash:1208-1259 | The output never exceeds the byte budget, counting annotations, line ends and the marker, for any comparison of lines and any patterns |
| CondenseLaws.LinesAccountedFor | lmline/context.bash:1208-1259 | Whenever the marker is printed at least one line is omitted, and printed and omitted lines add up to the input lines |
| CondenseLaws.FoldingIsLossless | lmline/context.bash:1202-1207 | Expanding the folded entries gives the capped input lines, and no two neighbours are equal |
| CondenseLaws.Utf8Intact | lmline/context.bash:1174-1261 | Well-formed lines give well-formed output, whatever is cut, folded or omitted |
| CondenseOrder.CondensedReads | lmline/context.bash:1174-1261 | Any output read back line by line, for input lines without line feeds: all rendered entries, or nothing, or the head, one marker line, the rescued lines and the tail |
| CondenseOrder.EndsKept | lmline/context.bash:1255-1258 | A condensed output begins with the printed head and ends in the printed tail |
| CondenseOrder.OutputReads | lmline/context.bash:1255-1258 | Behind the head stands one marker line with exactly the omitted counts |
| CondenseOrder.PrintedInOrder | lmline/context.bash:1226-1258 | The printed lines are rendered entries at increasing indices: the order of the input is kept and none is printed twice |
| CondenseOrder.MarkerTells | lmline/context.bash:1189-1194 | The two numbers can be read off the marker, and whether it speaks of notable lines |
| CondenseOrder.RenderTells | lmline/context.bash:1211-1213 | A folded line is printed with its own text in front and the number of its occurrences behind it |
| CondenseOrder.DroppedCounts | lmline/context.bash:1250-1254 | The numbers of the marker are the count and the bytes, line ends included, of the input lines that the dropped entries stand for |
| CondenseOrder.CappedTells | lmline/context.bash:1202-1204 | A line over the cap is printed as a front of it within the cap, of whole characters, and says that it was cut; any other is printed as it is |
| ToolText.SafeToolText | lmline/context.bash:329-364 | The ring buffer agrees with the plain view: first lines, marker, last lines |
| ToolText.WindowSize | lmline/context.bash:329-364 | The line limit holds exactly when it is positive or there is no line |
| ToolText.WindowShowsEnds | lmline/context.bash:329-364 | Every line outside the reported gap is shown in its place, and the marker counts the gap exactly |
| ToolText.ShownFront | lmline/context.bash:329-364 | A line that fits is shown whole; of any other exactly the front up to the byte limit is shown, with the mark behind it |
| Decimal.DecimalGtIsNumeric | lmline/config.bash:221-232 | Comparing canonical decimal strings by length and then as text is numeric order, for any length |
| Decimal.ClampInt | lmline/config.bash:234-261 | The clamp gives the default for what is not a number, else the smaller of value and bound; without a bound a value beyond 64 bits gives the default |
| Decimal.ClampFits | lmline/config.bash:234-261 | A clamped setting fits a signed 64-bit integer when the default and the bound do |
| Decimal.TimeoutExactly | lmline/sandbox.bash:70-78 | The timeout test accepts exactly the decimals of 1 to 2147483647 |
| Settings.ParseQuote | lmline/config.bash:5-29 | Parsing a single-quoted value gives the value back, for every string |
| Settings.QuotedValueReturns | lmline/config.bash:5-45 | Loading the line written for a key and a value gives exactly that setting if and only if the value holds no line feed |
| Settings.UnquotedLine | lmline/config.bash:9-29 | A value without quotes stands for itself when no character in it is special; a line with any other value, or one in double quotes, is passed over |
| Settings.LaterLineWins | lmline/config.bash:31-45 | A later line for a key wins over the lines in front of it and leaves the other keys alone |
| Settings.SetThenLoad | lmline/lmline:942-982 | Loading after a set gives the old settings updated at that key |
| Settings.SetWrites | lmline/lmline:942-968 | A set keeps the other lines as they were, in their order, and appends the new one |
| Settings.UnsetThenLoad | lmline/lmline:942-982 | Loading after an unset gives the old settings without that key |
| ConfigLoader.ShellVars.CaptureEnvBaseline | lmline/config.bash:81-92 | The baseline is captured once, before any file |
| ConfigLoader.ShellVars.LoadExportFile | lmline/config.bash:31-45 | Loading a file overrides the variables it defines and notes their keys |
| ConfigLoader.ShellVars.DropStaleKeys | lmline/config.bash:103-121 | A key no file defines any more goes back to its baseline when it still holds the stamp, and is left alone otherwise |
| ConfigLoader.ShellVars.StampKeys | lmline/config.bash:122-126 | The value of every loaded key is stamped |
| ConfigLoader.ShellVars.ReconcileConfigLoad | lmline/config.bash:98-127 | The two loops together are the reconciliation that the reload theorems are about |
| ConfigLoader.ShellVars.LoadAllConfig | lmline/config.bash:179-197 | One whole load from a disk: the settings file of the directory that the shell names at that moment, or of the default directory when it names none, reconciliation, and the project files only with consent |
| ConfigShell.ReloadIsExplained | lmline/config.bash:81-127 | Over any sequence of loads and user writes every variable has the value that its own history of definitions and writes explains |
| ConfigShell.SessionIsRun | lmline/config.bash:81-92 | A shell behaves from its first load on as if it had started with the variables that the user's earlier writes left: they are the baseline |
| ConfigShell.SessionIsExplained | lmline/config.bash:81-127 | So the values of a shell are explained from its start on |
| ConfigShell.ExpectedIs | lmline/config.bash:98-127 | That value is the file value if the last load defines the key, else the baseline, unless a write of the user stands |
| ConfigShell.GateIsExplained | lmline/config.bash:179-197 | Project files are read exactly when the history of the gate key says so |
| ConfigReload.LoadedValue | lmline/config.bash:98-127 | Without a user write to a key, its value after a load is what the files of that load define, and the baseline otherwise |
| ConfigReload.NearestFileWins | lmline/config.bash:179-197 | Of the files of one load that of the working directory wins over that of the Git root, and both over the settings file |
| ConfigReload.ReloadIsHistoryIndependent | lmline/config.bash:179-197 | A load forgets all loads before it, for every disk and every key the user left alone, exactly when the directory variable still names the directory of the start |
| ConfigReload.DirectoryStays | lmline/config.bash:31-45 | The directory stays as it was when no loaded disk and no user write defines its variable |
| ConfigReload.ReloadAlternates | lmline/config.bash:179-197 | Two settings files of which the first names the directory of the second: the same disk loads differently the second time |
| ConfigConsent.ConsentIgnoresProjects | lmline/config.bash:179-197 | While the user does not write the gate key, the project files of a run have no say in the consent of any later load exactly when they do not change the directory that is read |
| ConfigConsent.ProjectsHaveNoSay | lmline/config.bash:179-197 | In particular project files that do not define the directory variable have none |
| ConfigConsent.ProjectRedirectsConsent | lmline/config.bash:179-197 | A run in which a project file names its own settings directory and is read although the user has taken the consent out of the settings |
| ConfigConsent.ProjectsSwayConsent | lmline/config.bash:98-127 | For any run, a consenting load and a user write of the gate behind it: the exact condition under which no project files can sway the next load |
| ConfigConsent.ProjectUndoesOptOut | lmline/config.bash:98-127 | A run of a load and a write in which a project file turns consent back on against the user's last word |
| ConfigLock.LockExcludes | lmline/config.bash:134-163 | In every interleaving of writers, timeouts and crashes that do not skip the lock, at most one process is between acquire and release, and the lock names it |
| ConfigLock.OnlyOwnLockRemoved | lmline/config.bash:152-163 | Only the holder, or the operator when no writer holds it, takes the lock away |
| ConfigLock.LockIsSafe | lmline/lmline:942-994 | The file is the fold of the committed operations in lock order, as long as no copy between filesystems is cut short |
| ConfigLock.ReadersSeeCommittedWrites | lmline/lmline:942-994 | What a reader loads while no copy is on its way is the old settings updated by the committed writes |
| ConfigLock.RenameDecides | lmline/lmline:958-966 | That holds at every moment of every locked run, crashes included, exactly when the temporary file lies on the filesystem of the settings |
| ConfigLock.ReaderFindsNothing | lmline/lmline:958-966 | Between filesystems: a locked run in which a committed setting is missing for a reader |
| ConfigLock.CrashLeavesNothing | lmline/lmline:958-966 | Between filesystems: a crash that leaves the settings gone |
| ConfigLock.SkippingLosesUpdates | lmline/config.bash:134-148 | Two writers that skip the lock can both commit with one update gone |
| ConfigLock.WriterCommits | lmline/lmline:942-990 | A valid change that meets a free lock is written and committed, and the lock is gone afterwards; only an unset without a file writes nothing |
| ConfigLock.InvalidIsNotWritten | lmline/lmline:942-956 | A change with an invalid key or value writes nothing and gives the lock back |
| ConfigLock.WriterGivesUp | lmline/config.bash:137-146 | A writer that finds the lock taken gives up exactly at the last attempt and changes nothing |
| Exchange.SendWithRetry | lmline/chat.bash:91-110 | One request is sent at most retries+1 times, unchanged, and again exactly while the answers are transient |
| Exchange.PostChat | lmline/chat.bash:633-792 | One logical post succeeds exactly when the reply to its last send is a success that was accepted; more than the request itself is sent exactly when its last reply refuses something the request can do without, beginning with the first change that applies; all sends are variants of the request, at most 5*(retries+1), or retries+1 where repeats are not allowed |
| Exchange.RequestCarries | lmline/chat.bash:964-1060 | What a request carries: local tools only where the mode, the format and the route allow them, a search at most once in an exchange, and the fields of its format |
| ExchangeHistory.TurnKeepsPairing | lmline/chat.bash:1153-1209 | A turn keeps every call answered once and in order exactly when its calls are taken natively and run, every call is read by the loop, and what is read carries the call's id to its result; or when there are no native calls |
| ExchangeHistory.WholeMeans | lmline/chat.bash:1158-1203 | Where no tool stops inside a line, that means: no executed call but the last reads a waiting one, and every id reaches its result unchanged |
| ExchangeHistory.StandardInputSwallowsCall | lmline/chat.bash:1158-1203 | Two native calls of which the first reads its standard input: the second is never answered |
| ExchangeHistory.TornCallAnswersNobody | lmline/chat.bash:1158-1203 | Two native calls of which the first stops reading inside the second: there are two results, and the history is unpaired |
| ExchangeStory.StoryStands | lmline/chat.bash:1153-1209 | The history that a list of answers tells is paired exactly when the turn of each answer is whole, and otherwise no continuation makes it paired |
| ExchangeStory.AnswerAsks | lmline/chat.bash:1972-1995 | Which calls each tool mode takes from an answer: native ones first where both are allowed |
| ExchangeStory.QuietTurns | lmline/chat.bash:1158-1203 | With tools that leave their standard input alone a turn is whole exactly when its answer is tidy, whatever came before |
| ExchangeLoop.RunCalls | lmline/chat.bash:1158-1203 | The loop over the waiting calls succeeds exactly when no call that is read carries a NUL and no tool that is run fails; then it files the results that the rules give, each with the id and the name of its call, and skips exactly the calls over the limit, with swallowed calls and torn lines taken into account |
| ExchangeLoop.SummarizeToolHistory | lmline/chat.bash:1073-1126 | Summarizing posts once exactly for a long history, about the opening alone; it succeeds exactly when nothing was posted or the answer is accepted and says something, and leaves the opening messages with one summary |
| ExchangeLoop.ExecuteToolRound | lmline/chat.bash:1153-1209 | A round succeeds exactly when its calls can be answered and a summary that is due is accepted and not empty; it executes at most the per-round limit and appends exactly the results of the turn, unless the history is summarized |
| ExchangeLoop.ToolLoop | lmline/chat.bash:1970-2011 | The loop fails exactly when its last reply was rejected, was an empty summary, or asks for tools whose calls cannot all be answered; otherwise it ends with an accepted answer that asks for no tool or with its rounds used up; every answer that asked for tools while rounds were left became the next turn, and no other did |
| ExchangeLoop.Continue | lmline/chat.bash:1970-2011 | The same from any round and any request that streaming leaves behind |
| ExchangeLoop.ForcedAnswer | lmline/chat.bash:1997-2004 | The answer forced after the last round is one more post, without tools or search where repeats are allowed; it succeeds exactly when it is accepted |
| ExchangeLoop.FinishRun | lmline/chat.bash:2013-2102 | Behind the loop: an empty answer is asked for once more, without tools, exactly when tools were offered and a repeat is allowed; rejected candidates are asked for once more, with the opening alone; the run succeeds exactly when the answers asked for are accepted and the one behind the loop says something |
| ExchangeLoop.ChatRun | lmline/chat.bash:1909-2132 | In every run against any provider each posted history is the story of the answers before it, and paired exactly when the turn of every answer in it is whole; the turns are those of the answers that asked for tools, in order; the run fails exactly when the loop halts or one of the retries behind it is rejected or empty; executed tools, posts and sends stay within the configured products |
| ExchangeLoop.QuietPairing | lmline/chat.bash:1158-1203 | With tools that leave their standard input alone, a posted history is paired exactly when the answers it came from are tidy |
| ExchangeLoop.NativeRunsPair | lmline/chat.bash:1909-2132 | What can be checked before the call: native tools that leave their standard input alone and a provider whose ids reach their results pair every posted history |
| ExchangeLoop.PaidRoutes | lmline/websearch.bash:26-45 | With native search at most one logical request carries the search tool; on the subscription route there is one logical request and no local tool runs |
| WirePairing.PairedIsBalanced | lmline/chat.bash:886-921 | Whatever is replayed, the Responses form of a paired history has for every id as many outputs as calls, and nowhere an output ahead of its call |
| WirePairing.OneLaterOutput | lmline/chat.bash:886-921 | With distinct ids every call item has exactly one output, and it comes later |
| WirePairing.PostedIsBalanced | lmline/chat.bash:886-921 | A posted history is balanced in that way when the turns of its answers are whole |
| WirePairing.NativeRunsBalance | lmline/chat.bash:886-921 | So is every request of a run with native tools that leave their standard input alone and a provider whose ids reach their results |
| Replay.ReplayConserves | lmline/chat.bash:887-905 | Whatever items are replayed, every tool call is sent exactly once and the opaque items keep their order |
| Replay.ReplayRoundTrip | lmline/chat.bash:194-213 | Normalizing a response and converting it back gives the original output without messages, in order, exactly when calls that share an id stand together |
| Replay.DistinctIdsRoundTrip | lmline/chat.bash:887-905 | With distinct call ids the round trip always restores the output |
| Streaming.SplitIsLines | lmline/chat.bash:1703-1713 | The lines and the unfinished rest put together are the received text with its carriage returns turned into line feeds |
| Streaming.Stream.HandleLine | lmline/chat.bash:1593-1626 | One line is skipped, withheld or printed, with all counters |
| Streaming.Stream.Feed | lmline/chat.bash:1702-1709 | After any delta the display is the one of the content received so far |
| Streaming.Stream.Finish | lmline/chat.bash:1711-1713 | The unfinished last line is handled once, when there is one |
| Streaming.Receive | lmline/chat.bash:1684-1713 | The display depends on the concatenation of the deltas only, not on how it is cut |
| Streaming.SkipMeans | lmline/chat.bash:1593-1608 | A think block is open exactly after an opening line with no closing line behind it |
| Streaming.TagsCaught | lmline/chat.bash:1593-1606 | The lines that open or close a think block are exactly the two tags, in any case, with white space around them and in front of the bracket |
| Streaming.RequestsCaught | lmline/chat.bash:1608-1614 | The lines that are held back as tool requests are exactly those with the word in one of its three spellings, a blank and something more |
| Streaming.DisplayBounded | lmline/chat.bash:1617-1625 | Emitted bytes are the bytes printed and within the budget; the truncation flag is set exactly when content bytes exceed emitted bytes, which is exactly when the eligible lines do not fit; otherwise all of them are printed |
| Streaming.LaterLineStillPrints | lmline/chat.bash:1618-1625 | After a withheld line a shorter one is still printed |
| StreamLoop.Stream | lmline/chat.bash:1781-1808 | The streamed rounds: what they print and how they end, which the streams and the tools decide; every round before the last asked for tools that could be run; each streamed request carries the story of the streams before it; the turns of all rounds that asked for tools are stored, run below the limit and only stored at it |
| StreamLoop.HandoverAfterPrint | lmline/chat.bash:1793-1796 | The buffered path follows printed text exactly when an earlier round printed, or this one printed and collected calls whose turn could not be stored or whose round was one too many |
| StreamLoop.LimitRepeatsPrinted | lmline/chat.bash:1793-1798 | For every round limit: streams that print and ask for a tool each time end in a buffered request behind printed text |
| StreamLoop.LimitTurnUnpaired | lmline/chat.bash:1746-1798 | The native turn that is stored when the rounds are used up leaves every history that holds it unpaired, the forced answer's to begin with |
| StreamLoop.StreamedRun | lmline/chat.bash:1949-2132 | Streaming and the buffered loop behind it: every history is the story of the streams and then the replies before it, and paired exactly when all their turns in it are whole; it succeeds exactly when a stream brings the answer, or when the buffered loop that took over does; no streamed request asks for a search; streams, posts, sends and tools are bounded together |
| ToolDeltas.AssembledCalls | lmline/chat.bash:1733-1745 | There is one call per index that occurs, in index order, made of exactly that index's deltas in arrival order |
| ToolDeltas.InterleavingIrrelevant | lmline/chat.bash:1733-1745 | Streams with the same deltas per index assemble the same calls, however they interleave |
| ToolDeltas.FragmentationIrrelevant | lmline/chat.bash:1733-1745 | Cutting the arguments of one delta in two, anywhere in a stream, changes none of the assembled calls |
| ToolDeltas.StreamedCallsArrive | lmline/chat.bash:1733-1745 | Calls that a provider streams in pieces arrive as they were sent, in the order of their indices and however they interleave: each with its own id or the one made of its index, its name, and its arguments put together |
| LspFraming.HeaderEndIsFirst | lmline/copilot-client.js:281-282 | The header ends at the first blank line, when there is one |
| LspFraming.DrainAppend | lmline/copilot-client.js:277-291 | For any reading of the header, draining chunk by chunk delivers the same bodies and leaves the same bytes as draining all at once |
| LspFraming.Reader.OnData | lmline/copilot-client.js:277-291 | The loop delivers what the buffer with the new chunk holds and keeps the rest; a retired or failed server's data changes nothing |
| LspFraming.Receive | lmline/copilot-client.js:277-291 | Any split of a stream delivers the bodies of the whole stream |
| LspFraming.HeaderTaken | lmline/copilot-client.js:277-291 | A header without a length is skipped alone, one with a length takes its body along, and what follows is read as if it stood alone |
| LspFraming.HeaderRoundTrip | lmline/copilot-client.js:255-283 | The reader gets from the written header the number that was written |
| LspFraming.SendReceive | lmline/copilot-client.js:248-291 | Receiving what was sent returns the bodies in order and leaves nothing |
| LspFraming.PrefixDelivers | lmline/copilot-client.js:248-291 | Any prefix of the sent stream delivers a prefix of the bodies |
| LspRequests.Server.FailServer | lmline/copilot-client.js:198-209 | A failure rejects every pending request once and empties the table; a second failure does nothing |
| LspRequests.Server.SendMessage | lmline/copilot-client.js:248-262 | A send to a server that is not the current live one, or whose pipe fails, fails that server |
| LspRequests.Client.StartServer | lmline/copilot-client.js:211-239 | A start keeps a live server, and otherwise retires the old one and sends the initialize request as id one of a fresh table |
| LspRequests.Client.SendRequest | lmline/copilot-client.js:264-273 | A request gets the next id; when it cannot be sent it is settled at once and leaves no timer |
| LspRequests.Client.OnResponse | lmline/copilot-client.js:293-301 | A response settles only a pending request of the current, unfailed server, with its error when it carries one |
| LspRequests.Client.OnTimeout | lmline/copilot-client.js:268 | A timeout rejects its own request only |
| LspRequests.Client.SendReply | lmline/copilot-client.js:310-321 | A reply to the server that cannot be sent fails that server |
| LspRequests.Client.ProcessDies | lmline/copilot-client.js:193-196 | The process of a server can be gone before any handler has run |
| LspRequests.Client.AbandonStart | lmline/copilot-client.js:230-245 | A start whose initialize request was rejected or answered with an error fails its server |
| LspRequests.Client.OnExit | lmline/copilot-client.js:229 | An exit fails the server it belongs to |
| LspRequests.Client.OnPipeError | lmline/copilot-client.js:220-224 | So does a pipe error |
| LspRequests.RunIsValid | lmline/copilot-client.js:198-273 | In every run each issued request is in exactly one of pending or settled, only pending requests have timers, failed servers have nothing pending, and all retired servers are failed |
| LspRequests.RetiredIsInert | lmline/copilot-client.js:198-219 | No response, exit, pipe error, timeout or reply of a retired server changes anything at all |
| LspRequests.StepTouchesOne | lmline/copilot-client.js:198-301 | No step changes a retired generation, and a start begins a fresh one |
| LspRequests.RequestFindsDeath | lmline/copilot-client.js:193-273 | When the process is gone unreported, the next request fails the server and rejects that request and all pending ones |
| LspRequests.SettledOnce | lmline/copilot-client.js:293-301 | A settled request keeps its outcome, whatever arrives later |
| LspRequests.AnswersAreResponses | lmline/copilot-client.js:293-301 | Every answer or error a request got came in a response to its id from its own server, while that server was current and the request pending |
| LspRequests.EndedServer | lmline/copilot-client.js:198-245 | After an exit, a pipe error, a failed initialize request or a reply that cannot be sent, the server has failed, everything pending is rejected and everything settled stays |
| LspRequests.RequestSettled | lmline/copilot-client.js:264-301 | A timer rejects its request and a response settles its own with the result or the error it brought; the other requests wait on |
| LspEdit.Utf16Offset | lmline/copilot-client.js:115-127 | The character walk returns the offset exactly when it lies within the text and not inside a surrogate pair |
| LspEdit.ApplyInlineItem | lmline/copilot-client.js:129-141 | One edit: refused for line breaks, other lines and bad offsets, otherwise the spliced line |
| LspEdit.RangeEditWellFormed | lmline/copilot-client.js:129-141 | An edit by range never leaves a lone surrogate |
| LspEdit.CursorEditWellFormed | lmline/copilot-client.js:140 | An edit at the cursor leaves none exactly when nothing is inserted or the offset stands between characters |
| LspEdit.EditIsLocal | lmline/copilot-client.js:129-141 | An edit adds no line break and keeps the text in front of its start and behind its end |
| LspEdit.ReplacedRange | lmline/copilot-client.js:129-141 | Of an insert-replace edit only the replaced range counts |
| LspEdit.Candidates | lmline/copilot-client.js:440-447 | The loop over the items collects the edited lines in order of their first item |
| LspEdit.CandidatesExactly | lmline/copilot-client.js:440-447 | The candidates are distinct, keep the typed prefix, and are exactly the results of the acceptable items |
| LocalWords.SuspiciousMeans | lmline/context.bash:599-614 | The path patterns catch exactly absolute paths, home paths, dollar signs and parent components |
| LocalWords.SuspiciousOperand | lmline/context.bash:602-606 | Of an assignment-style word the part behind the first equals sign is checked as well as the whole |
| LocalWords.WordsRejectionReason | lmline/context.bash:584-614 | The loops over one segment's words give its verdict |
| LocalWords.LiteralRejectionReason | lmline/context.bash:616-665 | The scan with its look-ahead gives the first rejection in the order of the text, which the reading of the line determines (ShellWords.VerdictReads) |
| LocalWords.OkMeans | lmline/context.bash:584-665 | A line is ok exactly when it decodes completely and every segment is nonempty, starts with an allowlisted command, has no suspicious word and no acting find |
| LocalWords.PrintedPipelineDecodes | lmline/config.bash:5-8 | Any pipeline of any words printed in single quotes decodes to itself, so it gets the verdict of its words |
| ShellWords.EveryLineReads | lmline/context.bash:616-665 | Every line is a pipeline of words in the quoting rules of POSIX (section 2.2 of XCU), with a tail: nothing, a last backslash, quotes that are not closed, or a character that is not decoded |
| ShellWords.VerdictReads | lmline/context.bash:616-665 | The verdict of every line, by its reading: bare characters, backslash and character, single and double quotes stand for what the quoting rules say; a rejected segment comes first, then the undecoded character, then open quotes, then the last segment |
| ShellWords.AllowedReads | lmline/context.bash:584-665 | A line is ok exactly when its reading ends behind a complete part, or in a last backslash, and every segment of words is safe |
| ShellWords.WrittenReads | lmline/context.bash:628-645 | Any word between double quotes with its special characters escaped, and any word with a backslash before every character, reads as itself |
| ScopeScanner.RunIncluded | lmline/policy-parse.bash:801-1034 | In every state of every scan, and in every snapshot on every stack, the surviving names are the caller's and known, and the candidate's names are known |
| ScopeScanner.ScopeIsolates | lmline/policy-parse.bash:853-1034 | After the closer of an if, loop, case branch or subshell the names are the ones its opener saved, whatever was inside |
| ScopeScanner.BodyIsolates | lmline/policy-parse.bash:829-921 | After the closing brace of a function the names are the ones right after its header |
| ScopeScanner.NoRemovalInside | lmline/policy-parse.bash:364-407 | Inside an if, loop or case branch no token of an accepted scan removes a name, at any depth |
| ScopeNames.RunChanges | lmline/policy-parse.bash:337-1034 | What each accepted token of any run does to the names: a removal operand takes exactly its name out of all three sets, a header adds exactly its name to the known and the candidate's, an ampersand gives back those in front, closers and branches bring back what was saved, and nothing else changes any |
| ScopeNames.RemovalWord | lmline/policy-parse.bash:411-438 | A removal word starts a removal unless a function of that name is known, and must then stand at a direct command position, plain and without a wrapper |
| ScopeNames.RemovalOption | lmline/policy-parse.bash:371-384 | Behind unset only the two options are accepted, and they decide between functions and variables |
| ScopeNames.BackgroundRemoval | lmline/policy-parse.bash:355-369 | A removal sent to the background leaves the names as they were in front of it |
| ScopeNames.BackgroundGroup | lmline/policy-parse.bash:304-317 | So does a brace group sent to the background, whatever it holds |
| ScopeNames.RunUnlisted | lmline/policy-parse.bash:804-881 | In every run, at every brace level, a definition and a list operator have a semicolon between them |
| ScopeNames.StepMarks | lmline/policy-parse.bash:804-960 | Headers and list operators mark their level, and only a semicolon takes its marks away |
| ScopeGrammar.Scans | lmline/policy-parse.bash:247-1067 | Simple commands, removals, lists, if, loops, case, subshells, groups and function definitions, nested in any way: the scanner accepts their text exactly when it has a meaning under the scoping rules, and leaves names, scopes and marks as it means |
| ScopeGrammar.LineScans | lmline/policy-parse.bash:73-1086 | So a whole line of this grammar is accepted exactly when it has a meaning, with exactly the names that it means |
| ScopeStacks.Scan.PushScope | lmline/policy-parse.bash:1020-1024 | An opener pushes the three lists on three parallel stacks |
| ScopeStacks.Scan.PopScope | lmline/policy-parse.bash:1025-1034 | A closer restores all three lists from their stacks, and is refused for another kind of opener |
| ScopeStacks.Scan.CloseGroup | lmline/policy-parse.bash:904-960 | A closing brace ends its level, a function body opened there, and remembers the snapshot for a trailing ampersand |
| ScopeStacks.Scan.DefineFunction | lmline/policy-parse.bash:801-846 | A definition is refused behind a list operator, and otherwise adds the name and opens its body |
| ScopeStacks.Scan.RemoveOperand | lmline/policy-parse.bash:370-409 | Options and operands of a removal, refused where the effect is uncertain; an accepted operand takes its name out of all three lists (ScopeNames.RunChanges) |
| ScopeStacks.Scan.NextToken | lmline/policy-parse.bash:247-1067 | One token updates the in-place state as the token rules say |
| ScopeStacks.ScanTokens | lmline/policy-parse.bash:73-1086 | The whole scan accepts exactly what the token rules accept, with the names they leave |
| Credentials.SessionsAreSerial | lmline/chatgpt-client.js:686-750 | In every interleaving of login, refresh, token and logout the stored credential is what the commits one after the other leave; a refresh presents only the stored refresh token (section 6 of RFC 6749); an access token is handed out only as stored, with the plan scope, and either not about to expire or just refreshed |
| Credentials.LogoutStays | lmline/chatgpt-client.js:700-731 | After a committed logout no refresh commits and no token is stored until a later login commits |
| Credentials.LogoutStaysInRuns | lmline/chatgpt-client.js:700-731 | The same for every run of overlapping commands |
| Credentials.SessionDescends | lmline/chatgpt-client.js:608-684 | A stored session is the last committed login with the refreshes committed since, and keeps its client id |
| Credentials.RefreshedFields | lmline/chatgpt-client.js:643-667 | After any refreshes the access token, its end and its scopes are those of the last one, the refresh token and the account the last ones that were named, the client the login's |
| Credentials.OnlyProvenGrants | lmline/chatgpt-client.js:643-667 | An access token is handed out only while the latest commit itself states the plan scope: an answer without a scope takes the grant away |
| Credentials.RotationHolds | lmline/chatgpt-client.js:647-653 | After a refresh that rotated the refresh token only the new one is presented |
| Credentials.LoginStores | lmline/chatgpt-client.js:686-750 | A login that meets a free lock stores its credential and gives the lock back |
| Credentials.LogoutClears | lmline/chatgpt-client.js:700-731 | A logout takes the tokens or the file away, and commits nothing without a file |
| Credentials.TokenIsHandedOut | lmline/chatgpt-client.js:733-750 | A stored access token that is not about to end is handed out exactly when it has the plan scope |
| Credentials.AnswerIsStored | lmline/chatgpt-client.js:608-684 | A refresh presents the stored refresh token once, stores the answer, and hands a token that was asked for out exactly when the answer states the plan scope |
| Credentials.NoAnswerStoresNothing | lmline/chatgpt-client.js:608-684 | Without a usable answer nothing is stored or handed out |
| PerFileRunner.Drain | tools/shellcheck-per-file-poc/candidate.py:305-332 | Each buffer is the stream's prefix up to the cap; going over the cap is recorded once and only then; the time limit and a signal are recorded exactly when they are what ended the group; the status is the reaped one |
| PerFileRunner.Measure | tools/shellcheck-per-file-poc/candidate.py:300-392 | The errors say exactly what happened: a caught signal, the time limit, a group that may still hold processes, an exception of the wrapper, a stream over the cap, a retained prefix that is not UTF-8 |
| PerFileRunner.Run | tools/shellcheck-per-file-poc/candidate.py:470-538 | A report is complete exactly when the version check passed and every target of the manifest was measured cleanly; its entries are those of the targets in order, up to the first child after which the runner stops; stopping early never yields a complete report |
| PerFileRunner.CountIsMultiplicity | tools/shellcheck-per-file-poc/candidate.py:470-538 | The diagnostics of a target are the rows that name it, each counted once |

## Left out

- Process spawning, sockets, browser opening, OAuth cryptography and ID-token checks, clipboard providers and the sandbox: foreign effects.
- Widgets, hints, help text, doctor and completion output: user interface.
- Redaction and risk patterns, and the general pipeline splitter: pattern lists without an invariant of their own.
- Request-key hashing and cache files: hashes would be opaque.
- Locale effects: bytes or ASCII classes are used where the shell consults the locale, and NUL bytes that shell variables drop are not modelled outside the displayed answer.
- Condense.Fold: line equality is a parameter, because awk compares lines that look like numbers numerically; FoldingIsLossless is the case of plain equality.
- LspFraming.HeaderRoundTrip: header white space is ASCII white space, and lengths beyond 2^53, which JavaScript rounds, are exact here.
- StreamLoop.Stream: the deltas of a round are given by its text and its calls, as Streaming and ToolDeltas derive them; a stream that is sent again without usage options counts as two sends.
- WirePairing.PostedIsBalanced: opaque items are taken to be neither calls nor outputs.
- ConfigLock.LockIsSafe: a copy writes any prefix of the text before it is done, and a stale lock is removed by the operator with all writers stopped, as the error message asks; nothing else reclaims it.
- Credentials.SessionsAreSerial: mutual exclusion is assumed of the stale-lock reclaim, which is a stat followed by an unlink and could remove a lock just taken.
- ScopeGrammar.Scans: elif and the ampersand are not in its grammar; ScopeNames says what they do to the names.
- ScopeScanner.ScopeIsolates: tokens are given; the lexer, eval, trap, coproc, literal child shells, zsh short loops, and the summaries of functions that install or remove others are not modelled. It does not claim that a known name is bound in every shell run.
- ExchangeLoop.ExecuteToolRound: what a tool prints is opaque.
- PerFileRunner.Measure: what the guard samples is not modelled; a sample over its budget is one of the wrapper's exceptions; signals are those caught under the guard.
