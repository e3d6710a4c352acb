# demo1023 in Dafny

This project models the deterministic logic of the scripts in the demo1023
repository and proves properties of it. The scripts fall into four groups.

- **Even squares.** `even_squares_sum` is a filter-square-sum over integers. Around it sit three front ends:
  - the interactive prompt of `input_interface.py`, with its quit words, comma parsing and mode prompt;
  - the verbose `calculate_even_squares_sum` of `simple_interface.py`, with its "x²" calculation text;
  - the demo lists.
- **Model-reply handling.**
  - `AI_01/test.py` classifies sentiments with two fallback records and tallies them.
  - `AI_02/ner_simple.py` does the following:
    - reads `.env` lines;
    - strips code fences from replies;
    - never raises from `extract_entities`;
    - groups entities for display;
    - builds the batch table, where one text can give two rows;
    - pauses every `batch_size` texts;
    - counts entity types.
  - `AI_02/ner_visualization.py` does the following:
    - turns table rows into entity records;
    - looks up colours;
    - groups and counts by label;
    - ranks the most common entity texts;
    - assembles the statistics report.
- **The file-browser API of `server.js`.**
  - `/api/files` runs its checks in order: 400, then 403, then 404, then 500.
  - The extension tables of `getFileType` and `getFileIcon`.
  - The folders-first sort of `readDirectory`.
- **The git automation scripts.** These are `git-automation.js`, `auto-commit.js`, `mcp-git-workflow.js` and `mcp-github-commit.js`. The model covers:
  - how git output becomes a file list;
  - `hasChanges`;
  - commit-message assembly;
  - per-suffix file counts;
  - which git commands are issued, and in which order;
  - the `isRunning` / `intervalId` start and stop state.

The scripts apply Python operations to whatever the model service's JSON decodes to. So the model keeps every JSON value, and each such operation either gives its result or raises as Python does: `.get` on a value that is not a dict, `len` of a number, a list used as a dict key, `:.2f` or `np.mean` of a value that is not a number.

Everything external becomes a parameter:

| external part | how the model takes it |
|---|---|
| model replies | a function `(call index, text) -> Result<string>` |
| `json.loads` / `JSON.parse` | a decode function that can fail |
| `path.resolve` / `fs.existsSync` / directory reads | functions |
| `localeCompare` | an abstract order `leq` on names |
| the output of every read-only git command | an `Option<string>`, where `None` means `execSync` threw |
| `toLocaleString('zh-TW')` | a `timestamp` string |

Commands that change the repository are `Add`, `Commit(message)` and `Push`. An operation returns the sequence of these commands it issues. Whether the k-th issued command threw is the parameter `outcome(k)`.

The modules are:

| module | contents |
|---|---|
| `base.dfy` | `Option`, `Result`, `Map` / `Filter` / `Sum` |
| `text.dfy` | Python and JavaScript string helpers: `strip` / `trim`, `split`, `join`, `lower`, Python `int()` and `str()` of integers, JavaScript `parseInt` |
| `json.dfy` | decoded JSON values (null, booleans, numbers, strings, lists, dicts) and the Python operations the scripts apply to them: `dict.get`, `in`, truth, `len`, iteration, hashing, and being a number |
| `tally.dfy` | first-occurrence order (`dict` / `Set` insertion order), counting, grouping, and `Counter.most_common` as a stable rank by count |
| `git_text.dfy` | git output parsing, the command sequence, and the message lines shared by the git scripts |
| `shell.dfy` | how a POSIX shell reads the double-quoted commit message of `git commit -m "${message}"` |
| one module per source file | `even_squares.dfy`, `input_interface.dfy`, `simple_interface.dfy`, `sentiment.dfy`, `ner_simple.dfy`, `ner_visualization.dfy`, `file_server.dfy`, `git_automation.dfy`, `auto_commit.dfy`, `mcp_git_workflow.dfy`, `mcp_github_commit.dfy` |

Where the code keeps state its methods change, the model is a class with those fields. This applies to `GitAutomation` and `AutoCommit`, and to the environment written by `load_env_file`. Loops that build a value step by step are methods with loop invariants, proved equal to a specification function. The properties are proved about that function.

Two behaviours of the code are easy to misread:
- A batch of N texts gives N rows only when every echo succeeds. When the echo of line 210 raises (a `KeyError` for a missing `text` or `label`, or a `TypeError` for an element or a value that cannot be indexed by a key), the `except` branch appends a second row for the same text. A batch therefore gives N plus that number of rows (`NerSimple.BatchRowsLength`).
- The even-squares front ends are not behaviourally identical. `simple_interface.py` prints the calculation text. `input_interface.py` rejects lines and prints squares only when there are evens.

## Model

| member | source | states |
|---|---|---|
| EvenSquares.EvenSquaresSum | even_squares_sum.py:12 | the sum is never negative, and is 0 when no element is even |
| EvenSquares.Evens | simple_interface.py:11 | the evens are no more than the input, and every one of them is even |
| EvenSquares.EvensMember | simple_interface.py:11 | x is among the evens exactly when x is in the input and even, zero and negative evens included |
| EvenSquares.Squares | simple_interface.py:16 | one square per element, in order, each equal to x*x and non-negative |
| EvenSquares.EvenSquaresSumIsSumOfSquaredEvens | even_squares_sum.py:12 | the generator sum equals the sum of the squares of the evens (the reference definition) |
| EvenSquares.EvenSquaresSumAppend | even_squares_sum.py:12 | the result is additive over concatenation |
| EvenSquares.InsertOddUnchanged | even_squares_sum.py:12 | inserting an odd number anywhere leaves the result unchanged |
| EvenSquares.ExampleOneToTen | even_squares_sum.py:18-32 | [1..10] gives 220 |
| EvenSquares.ExampleAllEven | even_squares_sum.py:20 | [2,4,6,8] gives 120 |
| EvenSquares.ExampleAllOdd | even_squares_sum.py:19 | a list of odd numbers gives 0 |
| EvenSquares.ExampleWithZero | simple_interface.py:43 | [0,1,2,3,4] gives 20 |
| EvenSquares.ExampleTens | simple_interface.py:44 | [10,20,30,40,50] gives 5500 |
| EvenSquares.ExampleCustom | simple_interface.py:57-58 | the custom case gives 1944 |
| EvenSquares.ExampleNegative | even_squares_sum.py:12 | -2 counts as even under Python's `%`, so [-2,-3] gives 4 |
| SimpleInterface.Term | simple_interface.py:24 | each term is a non-empty rendering followed by '²' |
| SimpleInterface.CalculateEvenSquaresSum | simple_interface.py:3-30 | evens, squares and the printed sum are shown only when there are evens; the printed sum equals the returned `even_squares_sum`; with no evens it returns 0 |
| SimpleInterface.TermRoundTrip | simple_interface.py:24 | the text before '²' is `str(x)` and reads back as x |
| SimpleInterface.CalculationAppend | simple_interface.py:24 | one more even extends the calculation by " + " and its term |
| SimpleInterface.MainExamples | simple_interface.py:32-58 | the main cases return 220, 1944 and 0, and the empty list shows nothing |
| InputInterface.IsQuitWordLowered | input_interface.py:17 | a line quits exactly when its lower-case form is 'quit', 'exit' or 'q' |
| InputInterface.ReadNumbers | input_interface.py:27-33 | the piece loop reads exactly what the parsing function specifies, with `None` for the ValueError |
| InputInterface.HandleLine | input_interface.py:12-61 | one pass of the loop gives the outcome decided in the source's order: quit, empty, invalid, no numbers, or computed |
| InputInterface.ParseNumbersStopsAtError | input_interface.py:30-33 | once a piece is rejected, no later piece makes the line acceptable |
| InputInterface.CandidatesAreTrimmedNonEmpty | input_interface.py:30-32 | the pieces handed to `int()` are the stripped pieces with the empty ones dropped |
| InputInterface.ParseNumbersReadsCandidates | input_interface.py:27-33 | reading the pieces is `int()` applied to exactly those candidates |
| InputInterface.ParseAllCorrect | input_interface.py:30-33 | reading succeeds exactly when every candidate is an integer, and then gives one number per candidate, in order |
| InputInterface.ParseNumbersSkips | input_interface.py:31-32 | a piece that strips to nothing is skipped |
| InputInterface.ParseNumbersAppends | input_interface.py:31-33 | a piece that strips to an integer appends that integer |
| InputInterface.ParseShown | input_interface.py:27-33 | pieces written as Python prints integers read back as those integers |
| InputInterface.LineOutcomeComputes | input_interface.py:14-40 | a stripped line that is no quit word and whose pieces read as a non-empty list computes on that list |
| InputInterface.RenderedListRoundTrip | input_interface.py:14-51 | entering a non-empty list written with commas computes on exactly that list |
| InputInterface.ChooseMode | input_interface.py:89-99 | the prompt re-reads until a line selects a mode; it reports the selecting line, or that the lines ran out with none selecting |
| InputInterface.ModeOfChoices | input_interface.py:91-99 | only "1" and "2", after stripping, select the interactive and demo modes |
| InputInterface.ModeOfPaddedOne | input_interface.py:91-93 | " 1\n" selects the interactive mode |
| InputInterface.ModeOfPaddedTwo | input_interface.py:95-96 | " 2 " selects the demo mode |
| InputInterface.ModeOfTwelve | input_interface.py:98-99 | "12" selects nothing |
| InputInterface.DemoMode | input_interface.py:63-82 | one entry per case, showing the case, its evens and its even-squares sum |
| InputInterface.DemoResults | input_interface.py:68-82 | the five demo cases give 220, 120, 0, 20 and 5500 |
| Json.Lookup | AI_02/ner_simple.py:80 | a key is missing exactly when no member has that name |
| Json.LookupLast | AI_02/ner_simple.py:80 | a found value is that of the last member with the key, as in the dict `json.loads` builds |
| Json.KeysEmpty | AI_02/ner_simple.py:162 | a dict has no keys exactly when it has no members, so `len` 0 and falseness agree |
| Json.Len | AI_02/ner_simple.py:200 | `len` is defined exactly for strings, lists and dicts, and is 0 exactly for a false value |
| Json.Elements | AI_02/ner_simple.py:252 | iteration is defined exactly where `len` is, visits `len` elements, gives a list's items, and gives strings for a string or a dict |
| Sentiment.ClassifyOne | AI_01/test.py:37-70 | a raising call gives neutral/0.0 with the message; an undecodable reply gives neutral/0.5 with the parse-error text; otherwise the decoded value, whatever JSON value it is |
| Sentiment.Classified | AI_01/test.py:34-72 | one result per text, in input order, each the classification of that text's reply |
| Sentiment.ClassifySentiment | AI_01/test.py:24-72 | the loop appends exactly the classified results |
| Sentiment.FencedReplyFallsBack | AI_01/test.py:52-63 | the reply is decoded without fence stripping, so a fenced reply gets the 0.5 fallback |
| Sentiment.LoadTextsCorrect | AI_01/test.py:84-93 | the texts are exactly the non-empty stripped lines, each already stripped, and no more than the lines |
| Sentiment.ScriptTexts | AI_01/test.py:98-102 | the texts classified are never empty: the three defaults replace an empty load |
| Sentiment.Sentiments | AI_01/test.py:117-118 | one sentiment per result: its "sentiment" value of any JSON type, 'unknown' when absent |
| Sentiment.FallbacksTally | AI_01/test.py:59-70 | both fallback records print and count, under 'neutral' |
| Sentiment.FallbackResultsTally | AI_01/test.py:106-119 | when no reply decodes, the script prints and counts every result, all as 'neutral' |
| Sentiment.DisplayLoop | AI_01/test.py:108-113 | the print loop gets through exactly when every result is a dict with a numeric confidence; otherwise it stops at the first that is not |
| Sentiment.TallyLoop | AI_01/test.py:116-119 | the count loop gets through exactly when every result is a dict whose sentiment can be a key; otherwise it stops at the first that is not |
| Sentiment.RunScript | AI_01/test.py:10-123 | without an API key the script stops; a result the print loop cannot handle stops it there, one the count loop cannot handle stops it at the count, each at the first such result; otherwise each result is counted once under its sentiment, and the counts add up to the number of texts |
| NerSimple.EnvEntry | AI_02/ner_simple.py:22-25 | a line is skipped exactly when it is blank after stripping, starts with '#', or has no '=' |
| NerSimple.EnvEntryAtFirstEquals | AI_02/ner_simple.py:23-25 | the split is at the first '=', and key and value are stripped |
| NerSimple.EnvEntryOfAssignment | AI_02/ner_simple.py:22-25 | a `key=value` line defines key as value |
| NerSimple.ApplyEnvLinesAppend | AI_02/ner_simple.py:20-25 | reading a + b is reading a, then b |
| NerSimple.ApplyEnvLinesKeeps | AI_02/ner_simple.py:20-25 | lines that do not define a key leave its value as it was |
| NerSimple.LastDefinitionWins | AI_02/ner_simple.py:21-25 | the last line defining a key decides its value |
| NerSimple.SkippedLineChangesNothing | AI_02/ner_simple.py:22-23 | a skipped line changes nothing |
| NerSimple.FirstRejected | AI_02/ner_simple.py:21-25 | the first line whose assignment to `os.environ` raises (empty name or NUL), none before it raising |
| NerSimple.EmptyNameStopsLoading | AI_02/ner_simple.py:23-25 | a line "=value" stops the loading there: the lines before it are applied and none after it |
| NerSimple.Environment.LoadEnvFile | AI_02/ner_simple.py:16-25 | a missing file leaves the environment unchanged; otherwise the lines are applied in order up to the first whose assignment raises, and the method reports whether one did |
| NerSimple.StripFences | AI_02/ner_simple.py:73-76 | the content is the optional "```json" prefix, the result, and the optional "```" suffix |
| NerSimple.StripFencesOfFenced | AI_02/ner_simple.py:73-76 | a fenced body loses exactly the two markers |
| NerSimple.CleanReplyOfFenced | AI_02/ner_simple.py:70-77 | a fenced body reaches the decoder as the stripped body |
| NerSimple.CleanReplyOfUnfenced | AI_02/ner_simple.py:70-77 | a reply with neither marker is only stripped |
| NerSimple.ExtractEntities | AI_02/ner_simple.py:41-88 | a failed call, undecodable content, a decoded value that is not a dict, or a missing "entities" key gives []; otherwise the "entities" value as it is, null, number or string included |
| NerSimple.ExtractIgnoresFence | AI_02/ner_simple.py:70-80 | fenced and unfenced replies of the same body give the same entities |
| NerSimple.DisplayEntities | AI_02/ner_simple.py:161-180 | a false value shows the empty message; a true value raises exactly when it is not a list of dicts with a hashable label, a text and a numeric confidence; otherwise the groups are the labels in first-appearance order, each holding its entities in input order |
| NerSimple.EchoItems | AI_02/ner_simple.py:208-210 | the echo loop gets through exactly when every element is a dict with 'text' and 'label', and otherwise raises the error of the first element that is not |
| NerSimple.EchoError | AI_02/ner_simple.py:207-212 | the echo raises exactly when the value is true and not a list of dicts with 'text' and 'label'; the error is a KeyError for 'text' or 'label' or a TypeError, always a TypeError for a value that is not a list |
| NerSimple.RowsFor | AI_02/ner_simple.py:193-223 | one or two rows with the text's id and text; when `len` raises, a single unprocessed TypeError row; otherwise a processed row with the `len` as count, followed by an unprocessed, empty row with the echo's error exactly when the echo raises |
| NerSimple.NullLabelEchoes | AI_02/ner_simple.py:207-210 | an entity whose label is null is echoed without error: one processed row |
| NerSimple.ExtractAll | AI_02/ner_simple.py:190-194 | one extraction result per text, in order |
| NerSimple.BatchRowsLength | AI_02/ner_simple.py:190-223 | N texts give N rows plus one per sized result whose echo raises |
| NerSimple.BatchRowsTexts | AI_02/ner_simple.py:190-223 | every row carries the text of its id |
| NerSimple.BatchRowsOrdered | AI_02/ner_simple.py:190-223 | row ids run through 0..N-1 in order, none missing |
| NerSimple.FailedCallGivesEmptyRow | AI_02/ner_simple.py:193-204 | a failed model call still gives a processed row with no entities |
| NerSimple.BatchRowsContain | AI_02/ner_simple.py:190-204 | every text's first row is in the table |
| NerSimple.PausesCount | AI_02/ner_simple.py:226-228 | N texts give ⌊N / \|batch_size\|⌋ pauses under Python's `%` |
| NerSimple.BatchProcessTexts | AI_02/ner_simple.py:182-230 | without an API key nothing is processed; a zero batch size raises on the first text; otherwise the rows and the pause count above |
| NerSimple.AnalyzeResults | AI_02/ner_simple.py:232-272 | an empty table raises; otherwise the totals, and the average only when some row was processed; the type distribution raises exactly when some entity is not a dict with a hashable label; after it the confidence sum raises exactly when some confidence is not a number; otherwise the type counts are returned |
| NerSimple.TypeCountsCorrect | AI_02/ner_simple.py:256-264 | the type counts are non-increasing, add up to the number of entities, and each equals its label's occurrences |
| NerVisualization.FirstNonObject | AI_02/ner_visualization.py:57-63 | the number of leading dicts: all before it are dicts, and the one at it is not |
| NerVisualization.ObjectRecordsOfObjects | AI_02/ner_visualization.py:57-63 | a list of dicts gives one record per dict, in order |
| NerVisualization.RowRecordsOfDecoded | AI_02/ner_visualization.py:48-66 | a row decoding to a list gives the records of its leading dicts, with defaults '', 'UNKNOWN' and 0 and the row's text_id; records before a failing element are kept |
| NerVisualization.RowRecordsSkipped | AI_02/ner_visualization.py:49-66 | a NaN, '[]', non-string or undecodable cell, or one decoding to anything but a list, gives nothing |
| NerVisualization.ParsedRecordsAppend | AI_02/ner_visualization.py:48-68 | records come in row order |
| NerVisualization.EntityRecords | AI_02/ner_visualization.py:57-63 | the entity loop appends one record per element until the first that is not a dict |
| NerVisualization.ParseEntities | AI_02/ner_visualization.py:44-68 | the nested loop appends exactly the records of each row, in order |
| NerVisualization.ColorOfCorrect | AI_02/ner_visualization.py:26-33 | every colour is from the palette, and the OTHER colour is used exactly for labels other than the five named strings |
| NerVisualization.NullLabelNotDrawn | AI_02/ner_visualization.py:77-92 | a record with a null label makes the distribution's bar chart raise, and so stops the whole analysis |
| NerVisualization.TypeDistributionCorrect | AI_02/ner_visualization.py:70-109 | with hashable labels that matplotlib can place as bar categories (no null, and all strings or none), one bar per label in first-appearance order, with its true count and colour; the counts add up to the number of records |
| NerVisualization.ConfidenceDistribution | AI_02/ner_visualization.py:111-143 | nothing for no records; raises exactly when some confidence is not a number; otherwise plots every record's confidence, in order |
| NerVisualization.EntityByTypeAnalysis | AI_02/ner_visualization.py:145-254 | nothing exactly for no records; raises exactly when a label is not hashable, a confidence is not a number, or the labels are not bar categories (a null, or strings mixed with other values); otherwise the grouping loop gives exactly the type distribution |
| NerVisualization.CountBars | AI_02/ner_visualization.py:173-178 | one bar per group, with the group's size and its label's colour, in group order |
| NerVisualization.FirstWithText | AI_02/ner_visualization.py:279-285 | the position of the first record with the text: none before it has that text |
| NerVisualization.FindType | AI_02/ner_visualization.py:279-287 | the search loop with `break` finds the label of the first record with the text, or `None` |
| NerVisualization.RankedBars | AI_02/ner_visualization.py:278-287 | the colour loop raises exactly when the type found for some ranked text cannot be a key; otherwise one bar per ranked text |
| NerVisualization.CreateTopEntities | AI_02/ner_visualization.py:256-304 | nothing exactly for no records; raises exactly when a text is unhashable or, for a positive top_n, some ranked text's type is unhashable or the ranked texts are not bar categories; nothing found exactly for a non-positive top_n; otherwise one bar per `most_common(top_n)` entry |
| NerVisualization.TopTypesOfHashableLabels | AI_02/ner_visualization.py:279-289 | with hashable labels the colour lookup never raises |
| NerVisualization.TopBarColor | AI_02/ner_visualization.py:279-287 | a top entity's colour is that of the label of the first record with its text |
| NerVisualization.StatisticsReportCorrect | AI_02/ner_visualization.py:345-403 | with countable labels and texts and numeric confidences (the report draws no chart, so null labels pass), the report's type counts are the Counter of labels and add up to the total; the top list has at most 10 entries, largest first |
| NerVisualization.ComprehensiveAnalysis | AI_02/ner_visualization.py:306-343 | no data or no entities stops early; otherwise the charts are drawn exactly when every label and text is hashable, every confidence numeric, and the labels and the 15 top texts are bar categories, and an exception ends the analysis exactly when not; the charts and the report come from the same records |
| Tally.FirstOccurrences | git-automation.js:71 | `new Set` order lists each element once |
| Tally.FirstOccurrencesMember | git-automation.js:71 | the de-duplicated list keeps every element and adds none |
| Tally.FirstOccurrencesOrdered | git-automation.js:71 | elements appear in the order of their first occurrence |
| Tally.CountBy | AI_01/test.py:116-119 | the counting loop gives each key once, in first-appearance order, with its number of occurrences |
| Tally.CountsSumToLength | AI_01/test.py:116-119 | the counts add up to the number of counted elements |
| Tally.GroupBy | AI_02/ner_simple.py:168-173 | the grouping loop maps exactly the labels seen to their items, in input order, with the labels in first-appearance order |
| Tally.GroupSizes | AI_02/ner_visualization.py:152-164 | the group sizes are the counts of the labels |
| Tally.GroupSizesSumToLength | AI_02/ner_visualization.py:152-164 | every item lands in exactly one group |
| Tally.Counts | AI_02/ner_visualization.py:78 | Counter pairs are the distinct keys in first-appearance order, with their counts |
| Tally.CountItems | AI_02/ner_simple.py:258-260 | the `type_counts` loop computes the Counter pairs |
| Tally.RankByCountCorrect | AI_02/ner_simple.py:263 | `sorted(..., reverse=True)` by count is non-increasing, a permutation, and stable among equal counts |
| Tally.CountsPairSum | AI_02/ner_visualization.py:351-352 | Counter counts add up to the number of elements |
| Tally.RankedCountsSumToLength | AI_02/ner_simple.py:257-264 | ranked counts still add up to the number of elements |
| Tally.RankedCountsExact | AI_02/ner_simple.py:257-264 | each ranked pair carries its key's true count |
| Tally.MostCommonCorrect | AI_02/ner_visualization.py:263-265 | `most_common(n)` has min(n, distinct) pairs, is non-increasing, and is a prefix of the stable ranking with true counts |
| Tally.MostCommonNonEmpty | AI_02/ner_visualization.py:265-269 | a non-empty input and a positive n give at least one pair |
| Tally.MostCommonMember | AI_02/ner_visualization.py:263-265 | each pair names an element of the input with its count |
| Text.Trim | input_interface.py:14 | the result is no longer than the input and has no whitespace at either end |
| Text.TrimUnique | input_interface.py:14 | stripping removes exactly the whitespace runs at both ends |
| Text.TrimIdempotent | input_interface.py:31 | stripping twice is stripping once |
| Text.TrimEmpty | input_interface.py:22 | a line strips to nothing exactly when it is all whitespace |
| Text.ToLower | input_interface.py:17 | lower-casing maps upper-case letters to lower case and keeps every other character |
| Text.LowerIsToLower | input_interface.py:17 | the character-wise comparison is comparing the lower-cased line |
| Text.IndexOf | AI_02/ner_simple.py:24 | the position of the first '=', or none when absent |
| Text.IndexOfAt | AI_02/ner_simple.py:24 | the first occurrence is the position found |
| Text.Split | input_interface.py:27 | at least one piece, and no piece holds the separator |
| Text.JoinSplit | input_interface.py:27 | joining the pieces with the separator gives back the line |
| Text.SplitJoin | git-automation.js:36 | splitting pieces joined by a separator they do not contain gives back the pieces |
| Text.NonEmpty | git-automation.js:36 | `filter(f => f)` keeps no empty string |
| Text.ParseShowInt | input_interface.py:33 | `int(str(n)) == n` |
| Text.JsParseInt | mcp-git-workflow.js:174-175 | text starting with anything but whitespace, a digit or a sign is not a number |
| Text.RadixDecimal | mcp-git-workflow.js:174-175 | base-10 digits read by `parseInt` have their decimal value |
| Text.JsParseIntPrefix | mcp-git-workflow.js:174-175 | `parseInt` reads a signed leading digit run and ignores a rest that starts with neither a digit nor a hex marker |
| Text.JsParseIntShow | mcp-git-workflow.js:174-175 | `parseInt` reads a printed integer back |
| FileServer.LastDot | server.js:109 | the position of the last '.', with no '.' after it, or none when absent |
| FileServer.Extname | server.js:109 | `path.extname` is empty exactly for no dot, a leading-only dot or ".."; otherwise it starts at the last dot, is a suffix of the name and holds no other dot |
| FileServer.ExtKeyAt | server.js:109 | the key is the lower-cased text after the last dot |
| FileServer.ExtKeyShape | server.js:109 | the key has no upper-case letter and no dot, and is empty exactly when the extension is at most '.' |
| FileServer.TablesAgree | server.js:110-151 | the icon table covers the same extensions as the type table, with no empty entry |
| FileServer.PrototypeKeyEscapesTable | server.js:127 | as written, the keys "constructor" and "__proto__" reach inherited members of the tables instead of the default |
| FileServer.SetupConstructorMistyped | server.js:108-152 | as written, the file "setup.constructor" gets the `Object` function as both its type and its icon |
| FileServer.AsWrittenAgreesElsewhere | server.js:127 | for any other lower-case key, the as-written lookup agrees with the own-property lookup |
| FileServer.FileTypeAsWrittenAgrees | server.js:108-152 | for names whose key is neither inherited key, the two lookups agree |
| FileServer.TypeMapValues | server.js:110-126 | every table type is one of the known types and differs from 'file' |
| FileServer.FileTypeCorrect | server.js:108-153 | the type is a known type; it is 'file' exactly when the key is not in the table, and always without an extension; unknown types get '📄', and directories '📁' |
| FileServer.FileTypeIgnoresCase | server.js:109 | extensions that differ only in case give the same type and icon |
| FileServer.DotFileIsPlainFile | server.js:109 | ".gitignore" has no extension and is a plain 'file' |
| FileServer.LastExtensionCounts | server.js:108-128 | "backup.html.zip" is an 'archive': only the last extension counts |
| FileServer.Describe | server.js:68-76 | a directory is a 'folder' with '📁' whatever its name; a file gets its table type and icon |
| FileServer.InOrderTransitive | server.js:82-86 | the comparator's order is transitive for a total name order |
| FileServer.InsertFile | server.js:82-86 | insertion adds exactly the one entry |
| FileServer.SortFiles | server.js:82-86 | sorting is a permutation |
| FileServer.InsertFileSorted | server.js:82-86 | inserting into a sorted list keeps it sorted |
| FileServer.SortFilesSorted | server.js:82-86 | the result is sorted by the comparator |
| FileServer.SortFilesCorrect | server.js:82-86 | every folder precedes every file, names are ordered within each kind, and the entries are permuted |
| FileServer.ReadDirectory | server.js:58-94 | the listing is the sorted descriptions of the entries, a permutation of them |
| FileServer.Precheck | server.js:28-53 | 400 exactly for a missing or empty path; 500 with `path.resolve`'s TypeError exactly for a repeated or bracketed parameter, which parses to an array or an object; for a string, 403 exactly when the resolved path lacks the resolved root as a string prefix; 404 only after both pass, when the path does not exist |
| FileServer.SiblingPassesContainment | server.js:35-40 | a sibling such as root + "-x" passes the prefix test |
| FileServer.ListFiles | server.js:26-55 | the handler answers the first failing check, or 500 with the read error, or the sorted listing |
| Shell.PlainPassesIntact | git-automation.js:116 | a message with no `"`, `$`, backquote or backslash reaches git as written |
| Shell.CommandSubstitutionRuns | git-automation.js:116 | a message reaching `$(` before any such character makes the shell run a command substitution |
| Shell.FileNameInjection | git-automation.js:71-73 | the file line "- $(touch x).js" of a commit message is expanded by the shell |
| Shell.EscapeRoundTrip | git-automation.js:116 | every message, escaped with a backslash before each special character, is read back exactly, with the rest of the line untouched |
| Shell.CommitLineReadsMessage | git-automation.js:116 | the corrected command line hands git exactly the message |
| GitText.RunCorrect | mcp-github-commit.js:78-80 | commands run in order up to the first that throws, which ends the run with its error; with no error every command ran |
| GitText.RunPlan | git-automation.js:107-125 | add, then commit if add returned, then the plan's push if commit returned |
| GitText.OutputLines | git-automation.js:33-40 | `trim().split('\n').filter(f => f)` gives no empty name |
| GitText.OutputLinesShape | git-automation.js:36 | every name is non-empty and holds no line break |
| GitText.OutputLinesOfListing | git-automation.js:33-40 | git's one-name-per-line output gives back the names |
| GitText.HasChangesCorrect | git-automation.js:22-29 | changes exactly when the porcelain output is there and not all whitespace |
| GitText.Bullets | git-automation.js:71-73 | one "- f" line per file, in order |
| GitText.HeaderText | git-automation.js:59 | a header followed by a blank line is the header and two line breaks, as both the git-automation and the MCP workflow messages begin |
| GitText.UnlinesSplit | git-automation.js:59-75 | a message built line by line with "\n" splits back into its lines |
| GitAutomation.Bump | git-automation.js:83-88 | incrementing one counter leaves the others unchanged |
| GitAutomation.TalliedCount | git-automation.js:79-91 | each counter is the number of files with that suffix class |
| GitAutomation.TalliedTotal | git-automation.js:79-91 | the six counters add up to the number of files |
| GitAutomation.TalliedAppend | git-automation.js:62 | the counts of concatenated lists add, so a file both changed and staged counts twice |
| GitAutomation.TalliedPositive | git-automation.js:79-91 | a counter is positive exactly when some file falls in its class |
| GitAutomation.AnalyzeFileTypes | git-automation.js:79-91 | the `forEach` loop computes exactly the tally |
| GitAutomation.WriteTypeLines | git-automation.js:64-68 | the five `if`s append the type lines in order |
| GitAutomation.WriteBullets | git-automation.js:71-73 | the loop appends one "- f\n" per file |
| GitAutomation.GenerateCommitMessage | git-automation.js:53-76 | the message is the header, the type lines, the heading and the de-duplicated file lines |
| GitAutomation.CommitMessageParses | git-automation.js:59-75 | the message splits back into exactly those lines |
| GitAutomation.ListedFilesCorrect | git-automation.js:71 | a file is listed exactly when it is changed or staged |
| GitAutomation.TypeLinesCorrect | git-automation.js:64-68 | each type line is present exactly when its counter is non-zero; at most five lines |
| GitAutomation.TypeLinesDistinct | git-automation.js:64-68 | the five type lines begin with distinct symbols |
| GitAutomation.RunCustom | git-automation.js:136-145 | a custom message commits, then pushes when autoPush, with a throw ending the run |
| GitAutomation.AutoCommitOrder | git-automation.js:95-130 | no changes issue nothing; otherwise add, commit and push in order, and push exactly when autoPush and both earlier commands returned |
| GitAutomation.Automation.constructor | git-automation.js:13-19 | the repository, branch and 30 s interval; autoPush on; not running |
| GitAutomation.Automation.PerformAutoCommit | git-automation.js:95-130 | issues exactly the commands above |
| GitAutomation.Automation.ManualCommit | git-automation.js:133-146 | a custom message commits it; otherwise an automatic round, then another push when autoPush |
| GitAutomation.Automation.Start | git-automation.js:149-170 | while running nothing changes; otherwise running, a timer, and one round at once |
| GitAutomation.Automation.Stop | git-automation.js:173-186 | while stopped nothing changes; otherwise not running and no timer |
| GitAutomation.ManualCommitPushesTwice | git-automation.js:136-145 | without a custom message, a successful manual commit pushes twice |
| AutoCommitScript.LastCommitHash | auto-commit.js:29-35 | no hash exactly when `git rev-parse` threw |
| AutoCommitScript.LastCommitHashOfLine | auto-commit.js:29-35 | the printed hash line gives the hash |
| AutoCommitScript.GetChangedFilesCorrect | auto-commit.js:49-60 | both lists parsed separately; either failure empties both; listings round-trip |
| AutoCommitScript.MessageText | auto-commit.js:63-79 | the header, then the staged section only when staged files exist, then the unstaged section only when unstaged files exist |
| AutoCommitScript.GenerateCommitMessage | auto-commit.js:63-79 | the built message is that text |
| AutoCommitScript.CommitMessageParses | auto-commit.js:68-78 | the message splits back into its lines |
| AutoCommitScript.SectionsCorrect | auto-commit.js:70-76 | each heading is present exactly when its list is non-empty; the staged heading is third; the message ends with the last unstaged file, or with a blank line when there is none |
| AutoCommitScript.RoundOrder | auto-commit.js:82-118 | no changes issue nothing; otherwise add, commit, push in order, and push exactly when the commit returned |
| AutoCommitScript.AutoCommit.constructor | auto-commit.js:23-26 | not running, and holding the current head hash |
| AutoCommitScript.AutoCommit.PerformAutoCommit | auto-commit.js:82-118 | issues those commands; the hash is refreshed exactly when the commit returned; the running state is unchanged |
| AutoCommitScript.AutoCommit.Start | auto-commit.js:121-142 | while running nothing changes; otherwise running, a timer, and one round at once |
| AutoCommitScript.AutoCommit.Stop | auto-commit.js:145-158 | while stopped nothing changes; otherwise not running and no timer; the hash is kept |
| AutoCommitScript.AutoCommit.ManualCommit | auto-commit.js:161-164 | one automatic round, with the same hash update |
| McpGitWorkflow.CurrentBranchOfLine | mcp-git-workflow.js:126-132 | the printed branch line gives the branch; a failure gives 'unknown' |
| McpGitWorkflow.GetLastCommit | mcp-git-workflow.js:155-163 | hash and message are both there exactly when both queries succeeded |
| McpGitWorkflow.LastCommitOfLines | mcp-git-workflow.js:155-163 | printed lines give the hash and the message |
| McpGitWorkflow.CountOf | mcp-git-workflow.js:174-175 | empty or non-numeric output counts 0 |
| McpGitWorkflow.CountOfLine | mcp-git-workflow.js:169-175 | a printed count reads back as itself |
| McpGitWorkflow.GetRemoteStatus | mcp-git-workflow.js:166-180 | any failure gives no remote and counts 0; the remote is a single line |
| McpGitWorkflow.RemoteStatusOfOutput | mcp-git-workflow.js:166-180 | the remote is the first line of the listing, and the printed counts read back |
| McpGitWorkflow.ReadGitStatus | mcp-git-workflow.js:35-54 | hasChanges exactly when the porcelain output is there and not all whitespace |
| McpGitWorkflow.AnyEndsWithCorrect | mcp-git-workflow.js:195-197 | `some(f => f.endsWith(s))` holds exactly when some file ends with s |
| McpGitWorkflow.WriteSuffixLine | mcp-git-workflow.js:199-201 | one `if` appends its line exactly when some file has the suffix |
| McpGitWorkflow.WriteTypeLines | mcp-git-workflow.js:195-201 | the three `if`s append the type lines |
| McpGitWorkflow.GenerateCommitMessage | mcp-git-workflow.js:183-204 | the message is the header, the file section and the type lines |
| McpGitWorkflow.CommitMessageParses | mcp-git-workflow.js:188-201 | the message splits back into its lines |
| McpGitWorkflow.FilesListed | mcp-git-workflow.js:190-192 | the heading is there exactly when files changed, followed by one bullet per file and a blank line |
| McpGitWorkflow.TypeLinesPresent | mcp-git-workflow.js:195-201 | each type line is present exactly when some file has its suffix |
| McpGitWorkflow.TypeLinesOrdered | mcp-git-workflow.js:199-201 | at most three type lines, in the order HTML, JavaScript, CSS |
| McpGitWorkflow.TypeLinesLast | mcp-git-workflow.js:194-201 | the type lines end the message |
| McpGitWorkflow.Execute | mcp-git-workflow.js:101-123 | add is always issued; success exactly when every command and the head query returned; `pushed` matches the push option; failures carry the "Git 操作失敗: " prefix |
| McpGitWorkflow.ExecuteRuns | mcp-git-workflow.js:101-123 | the commands issued are those of the add, commit, push sequence up to the first throw |
| McpGitWorkflow.ExecuteGitCommands | mcp-git-workflow.js:101-123 | the step-by-step commands compute exactly that |
| McpGitWorkflow.CommitAndPush | mcp-git-workflow.js:57-98 | success wraps the commit hash and pushed flag with the simulated note; a failure passes on the same error text |
| McpGitWorkflow.RoundOrder | mcp-git-workflow.js:228-254 | no changes issue nothing; otherwise add, commit, push in order, and push exactly when add, commit and the head query succeeded |
| McpGitWorkflow.PerformAutoCommit | mcp-git-workflow.js:228-254 | issues exactly those commands, catching every failure |
| McpGitWorkflow.StartAutoWorkflow | mcp-git-workflow.js:207-225 | one round at once |
| McpGitWorkflow.ManualCommit | mcp-git-workflow.js:257-265 | commits the custom message when given and non-empty, the generated one otherwise, always with a push |
| McpGitHubCommit.MessageJoinsLines | mcp-github-commit.js:104-112 | the message is its lines joined by line breaks |
| McpGitHubCommit.CommitMessageParses | mcp-github-commit.js:104-112 | the message splits back into the header, the heading and one bullet per file, with no final line break |
| McpGitHubCommit.MessageHeader | mcp-github-commit.js:108-109 | every message starts with the header and the heading, even with no files |
| McpGitHubCommit.SimulateMCPCommit | mcp-github-commit.js:64-81 | add, commit and push run in order; the first throw ends the run |
| McpGitHubCommit.CreateOrder | mcp-github-commit.js:30-61 | no changes issue nothing; otherwise add, commit, push in order, and push exactly when add and commit returned |
| McpGitHubCommit.CreateCommitWithMCP | mcp-github-commit.js:30-61 | issues exactly those commands; failures are caught |
| McpGitHubCommit.Start | mcp-github-commit.js:115-132 | one round at once |

## Findings

| source | as written | input that shows it | evidently intended | confidence | as-written member | corrected member |
|---|---|---|---|---|---|---|
| server.js:127 | `typeMap[ext] \|\| 'file'` also reads properties inherited from `Object.prototype` | a file named "setup.constructor" (or "x.__proto__") gets the `Object` function (or the prototype object) as its type | an extension missing from the table gives 'file' | high, not executed | FileServer.SetupConstructorMistyped | FileServer.FileTypeCorrect |
| server.js:152 | `iconMap[ext] \|\| '📄'` has the same inherited-property lookup | the same names get the `Object` function (or the prototype object) as their icon | an extension missing from the table gives '📄' | high, not executed | FileServer.PrototypeKeyEscapesTable | FileServer.FileTypeCorrect |
| git-automation.js:116 | `git commit -m "${commitMessage}"` splices the message, which lists the changed file names, into a double-quoted shell word | a changed file named "$(touch x).js": its line of the message runs `touch x` | git receives the message as written | high, not executed | Shell.FileNameInjection | Shell.EscapeRoundTrip |
| auto-commit.js:102 | the same splice of the generated message, which lists the staged and unstaged file names | the same file name | git receives the message as written | high, not executed | Shell.CommandSubstitutionRuns | Shell.EscapeRoundTrip |
| mcp-git-workflow.js:107 | the same splice of the generated message, which lists the changed file names | the same file name | git receives the message as written | high, not executed | Shell.CommandSubstitutionRuns | Shell.EscapeRoundTrip |
| mcp-github-commit.js:79 | the same splice of the generated message, which lists the changed file names | the same file name | git receives the message as written | high, not executed | Shell.CommandSubstitutionRuns | Shell.EscapeRoundTrip |

The corrected lookups (`FileServer.FileType`, `FileServer.FileIcon`) read only the tables' own entries, and `FileServer.Describe` and the listing use them. `FileServer.AsWrittenAgreesElsewhere` and `FileServer.FileTypeAsWrittenAgrees` show that the two lookups differ only on the two inherited keys.

Inside double quotes the shell still expands `$...` and backquotes, so a file name can inject a command into the commit (the custom message of git-automation.js:138 is spliced the same way). `Shell.PlainPassesIntact` shows that messages without the four special characters pass intact. The corrected command line (`Shell.CommitLine`) escapes those characters, and `Shell.EscapeRoundTrip` proves the shell then reads back exactly the message. The git modules' `Commit(message)` command stands for git receiving exactly `message`, as the corrected line guarantees.

## Left out

- Calls to the OpenAI service, `json.loads` / `JSON.parse` / `json.dumps`, `path.resolve`, `fs.existsSync`, `readdirSync` / `statSync`, `localeCompare` and `toLocaleString` are parameters, as described above.
- `execSync` and git itself are not modelled. The shell's reading of the commit message is modelled only for the double-quoted message word (`Shell`); word splitting and the other words of the command line are not.
- The model does not say which read-only git queries run or in what order. Their outputs are parameters, and only `add`, `commit` and `push` are issued commands.
- Floating-point statistics are left out. These are the confidence averages, minimums and maximums (`np.mean` / `min` / `max`), the average in `analyze_results` (kept only as a real quotient), and the confidence chart.
- `formatFileSize` in server.js is left out: it relies on `Math.log` and `toFixed`.
- All drawing, file output and table I/O are left out: matplotlib charts, `read_csv` / `to_csv`, and the report file.
- `FileServer.FileInfo` omits the entry's size, modification time and full path, which come from `statSync`.
- Console output is represented by the outcome or data that decides it.
- Timers and process control are left out: `time.sleep`, `setInterval` rounds after the first, SIGINT / SIGTERM handlers and `process.exit`. `Start` models the immediate round and the timer handle only.
- The command-line `switch` blocks are left out, as are the usage texts, `showStatus`, and the status command's logging.
- `initializeMCP` and `checkMCPGitHub` always return true and are left out. So is the "not ready" branch they guard, which cannot be taken.
- The interactive loops are left out as loops. `get_user_input` is modelled one entered line at a time (`InputInterface.HandleLine`). `KeyboardInterrupt` is not modelled. `EOFError` is caught by `except Exception` and the loop goes on.
- `InputInterface.ChooseMode` models the mode prompt over a finite sequence of lines. Running out of lines stands for the uncaught `EOFError` of `input()`.
- Text.Trim: whitespace is ASCII space plus tab through carriage return. Python's `strip()` and `int()` also strip the separators \x1c–\x1f, which JavaScript's `trim()` keeps, and both strip other Unicode spaces; the model strips none of these.
- Text.ToLower: only ASCII letters are lowered. Python's `lower()` also lowers other scripts.
- Text.JsParseInt: leading whitespace is that same ASCII set. Digit runs that exceed the double-precision range are not rounded.
- Text.ParseInt: Python's `int()` also accepts non-ASCII decimal digits; the model accepts ASCII digits, a sign and single underscores between digits. It also has no digit limit: CPython 3.11 and later, and the security releases of 3.7–3.10, raise ValueError when converting an integer of more than 4300 decimal digits from or to a string. The limit depends on the interpreter version, `PYTHONINTMAXSTRDIGITS` and `sys.set_int_max_str_digits`.
- Text.ParseShowInt: holds without that limit; under it, `str(n)` itself raises for more than 4300 digits.
- InputInterface.HandleLine: under that limit, line 55 turns the ValueError into the invalid-number message in two more cases. A piece of more than 4300 digits is rejected at line 33. An even number whose square or sum has more than 4300 digits fails when printed at lines 48-49, after the list and the evens were printed. The model computes in both cases.
- InputInterface.LineOutcomeComputes: holds for numbers, squares and sums within that digit limit only.
- InputInterface.RenderedListRoundTrip: holds for numbers, squares and sums within that digit limit only.
- InputInterface.ParseAllCorrect: a candidate of more than 4300 digits is an integer here but is rejected under that limit.
- The `CONFIG.commitMessage` and `CONFIG.excludeFiles` of auto-commit.js are never read by the script. The `options.files` argument of mcp-git-workflow.js and the `files` argument of mcp-github-commit.js's `simulateMCPCommit` are never used either. None of them is modelled.
- The `MCPGitWorkflow` and `MCPGitHubCommit` classes hold only constant fields (`repository`, `branch`, `mcpServer = null`), so their methods are module-level methods of `McpGitWorkflow` and `McpGitHubCommit`.
- `readGitStatus` returns `null` only if one of its helpers throws, and every helper catches its own errors, so that branch cannot be taken and is not modelled.
- In git-automation.js (lines 107-113) and auto-commit.js (lines 94-97), `performAutoCommit` reads the diff after `git add .`, so the unstaged list is then almost always empty. The snapshot parameter stands for what those queries print at that moment.
- Sentiment.RunScript: the lines printed before an exception are not modelled; the outcome names only the loop and the result where it raised.
- Python treats `True`, `1` and `1.0` as the same dict key and `Counter` element. The model keeps `Bool(true)` and `Num(1.0)` apart, so counts by label, sentiment or text that mix them are split where Python merges them.
- Decoded dicts are compared member list to member list, where Python ignores member order. No modelled result depends on this: every comparison of labels or texts is reached only after they were all found hashable, so no dict is ever compared.
- The text of an exception is not modelled: an error row holds `KeyError(key)` or `TypeError` rather than `str(e)`.
- `np.mean` also averages lists of numbers of equal length; the model treats any list or dict confidence as raising. The JSON literals `NaN` and `Infinity` that `json.loads` accepts are numbers like any other here.
- NerVisualization.ConfidenceDistribution: what numpy's histogram and matplotlib's box plot do with a confidence list made only of booleans is not modelled; the model plots it.
- NerVisualization.EntityByTypeAnalysis: the same case for the per-type box plot at ner_visualization.py:206; a label group whose confidences are all booleans is drawn in the model, whatever numpy and matplotlib do with it.
- NerVisualization.ComprehensiveAnalysis: `Chartable` inherits both boolean cases above, so it promises charts for all-boolean confidence lists, whatever numpy and matplotlib do with them.
- NerSimple.AnalyzeResults: the values of the confidence average, maximum and minimum are not modelled, only whether `sum` raises on them; with no decoded entities the model returns empty type counts where the script prints nothing.
- The demonstration texts of `demonstrate_ner_applications` are left out: that function only calls `extract_entities` and `display_entities`, which are modelled.
- test_examples.py and test_simple.py are not part of this model. Their lists appear as example lemmas.
