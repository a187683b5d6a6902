# SKKN writing assistant: a verified model of its core

The application helps Vietnamese teachers write an initiative report
("sáng kiến kinh nghiệm", SKKN). A wizard collects their details.
A language model then writes the report section by section: an outline,
Parts I–II and III, one to five solutions each followed by a review step,
Parts V–VI, and an appendix. Alternatively the sections can follow an
uploaded template's outline. The result is exported to Word.

This project models the parts of that program that decide things, and
proves what they promise:

- **Types** (`types.dfy`): the step enumeration and its numbering, the
  solution slots, and the user settings.
- **Allocation / Truncation** (`allocation.dfy`): the page budget split over
  the parts, and the cut of over-long reference material.
- **Outline** (`outline.dfy`): the reduction of a template outline to the
  sections that get their own step, the custom-flow switch, the step ids,
  and the sidebar entries.
- **Transitions** (`transitions.dfy`): which step follows which, and
  whether a reply is kept in the document. Also the review-step helpers.
- **Locator** (`locator.dfy`): how the review step finds a finished
  solution's text in the document.
- **Session** (`session.dfy`): the snapshot saved to storage, the load-time
  offer, and the restore.
- **Engine** (`engine.dfy`): the App component as a class. It holds the
  generation state, the solutions record, the chat client's history, the key
  and the storage slot. Its methods are the handlers that change them: one
  run of `generateNextSection` with its key-rotation retries, the review
  effect, the approve handler, and the session handlers.
- **Markdown** (`markdown.dfy`): the exporter's line-based Markdown parser.
- **DocxLayout** (`docx_layout.dfy`): the layout of the parsed blocks
  as Word paragraphs, tables and numbering definitions. Also the report
  header and the export's choice of whether to include it.
- **Subjects** (`subjects.dfy`): the subject catalogue and its lookups.
- **JsStrings** (`js_strings.dfy`): the JavaScript built-in string
  operations the rest relies on: `trim`, `indexOf`, `substring`,
  `includes`, `split`, `join`, `startsWith` and the decimal rendering of a
  counter in a template literal. They model the ECMAScript built-ins, not
  functions of the repository; their rows cite the call sites.


Where the code and its documentation differ, the model follows the code:

- The step moves to the planned one before the reply streams. It stays
  there when the call fails.
- The retry after a quota or rate-limit error has no counter. A retried
  call keeps the chunks it had already streamed, so that text appears twice.
- The retry is scheduled from a stale closure, so it re-runs the same plan.
- After the fourth solution's review, the fifth solution follows
  unconditionally, whatever the number of solutions chosen.
- The four parts of the page allocation can add up to more than the page
  limit: 30 pages and three solutions give 2 + 2 + 26 + 1 = 31.
- The fallback of the outline reducer to the unfiltered outline is never
  taken.
- The review effect does not look at `error`: a failed solution step is
  still reviewed and approved.

## Model

| member | source | states |
|---|---|---|
| `Types.StepValuesInOrder` | types.ts:70-94 | The 17 steps have the values 0..16 in declaration order, and a value determines its step. |
| `Types.SolutionStepsBetweenParts` | types.ts:70-94 | For k in 1..5: Parts I–II and III come before solution k's writing step; its review step comes before Parts V–VI, the appendix and the completed step. INPUT_FORM is 0, OUTLINE is 1 and COMPLETED is 16. |
| `Types.StepOfValue` | types.ts:70-94 | There is a step with value n exactly when 0 <= n <= 16, and its value is n. |
| `Types.SolutionStep` | types.ts:76-89 | Solution k's writing step has the value 2 + 2k. |
| `Types.ReviewStep` | types.ts:76-89 | Solution k's review step is the value after its writing step. |
| `Types.NoSolutions` | App.tsx:208-214 | The initial solutions record has exactly the five declared slots, all empty. |
| `Types.SlotKeysDistinct` | types.ts:116-122 | The five slot names are distinct: two agree only for the same solution number. |
| `Allocation.RoundHalfUp` | App.tsx:422-424 | `Math.round` of a quotient is the nearest integer, with halves rounded up. |
| `Allocation.FloorDiv` | App.tsx:426 | `Math.floor` of a quotient, for either sign of the divisor. |
| `Allocation.EffectiveSolutions` | App.tsx:419 | `numSolutions \|\| 3`: zero falls back to 3, any other count is kept. |
| `Allocation.Budget` | App.tsx:428-438 | A part's words and characters are its pages times 350 and 2500. |
| `Allocation.GetPageAllocation` | App.tsx:413-441 | An allocation exists exactly when the page limit is a non-zero number. Parts I–II, III and V–VI have at least one page each. Part IV has at least three pages per solution. Parts V–VI cover at least the residual. A solution has at least two pages. Every budget is priced per page. |
| `Allocation.PartsSumIffResidualPositive` | App.tsx:422-425 | The parts add up to the limit exactly when the residual is at least one page; otherwise Parts V–VI are clamped to one page and the parts exceed the limit. |
| `Allocation.ThirtyPagesThreeSolutions` | App.tsx:422-426 | 30 pages and three solutions give 2, 2, 26 and 1 pages (31 in all), and 8 pages per solution. |
| `Allocation.SolutionsFitInPartIV` | App.tsx:424-426 | For any non-zero page limit and any positive number of solutions, the per-solution budget is Part IV's floor share: the solutions fit in Part IV with less than one solution's worth left over, and the two-page floor never applies. |
| `Allocation.EqualShare` | App.tsx:424-426 | A part of at least three pages per solution gives each solution at least three pages when shared equally and rounded down, with less than one share left over. |
| `Truncation.TruncateForPrompt` | App.tsx:20-28 | The text is kept whole exactly when it fits. Otherwise its first maxChars characters are kept, the notice counts the removed characters, and the page estimate is the removed count over 2500 rounded to nearest. |
| `Truncation.TruncateIdempotent` | App.tsx:20-28 | Truncating the kept text again keeps the same text and adds no notice. |
| `Outline.SubtreeEnd` | App.tsx:252-255 | The first index from j whose level is not deeper than lvl; everything before it is deeper. |
| `Outline.KeptFrom` | App.tsx:235-258 | The kept indices lie within the outline and strictly increase, and a non-empty suffix keeps at least one. |
| `Outline.Pick` | App.tsx:235-258 | The picked sections are the outline's sections at the given indices, in order. |
| `Outline.ReduceSections` | App.tsx:235-260 | A non-empty outline never reduces to nothing. |
| `Outline.ValidCustomSections` | App.tsx:225-261 | The cursor loop returns exactly the reduced outline of the parsed template, or nothing without one. |
| `Outline.SkipSubtree` | App.tsx:252-256 | The inner loop stops at the end of the current section's subtree. |
| `Outline.KeptStep` | App.tsx:238-257 | One cursor step: a level-1 section with a child is dropped, one without is kept, and a deeper section is kept and its subtree skipped. |
| `Outline.KeptLevelOneHasNoChild` | App.tsx:243-246 | A kept level-1 section has no child. |
| `Outline.KeptSectionSkipsItsSubtree` | App.tsx:247-256 | No section inside a kept deeper section's subtree is kept. |
| `Outline.EverySectionAccountedFor` | App.tsx:235-258 | Every section is kept, or is a level-1 section with a child, or lies in a kept section's subtree. |
| `Outline.FallbackNeverTaken` | App.tsx:260 | The reducer's result is always the kept sections: the fallback to the whole outline is never used. |
| `Outline.FlatOutlineKeptWhole` | App.tsx:243-246 | In an outline of level-1 sections only, every section from the cursor on is kept, in order. |
| `Outline.FlatOutlineUnchanged` | App.tsx:225-261 | An outline of level-1 sections without children is left unchanged. |
| `Outline.ExampleOutline` | App.tsx:225-261 | Part I with a sub-part holding an item, then another sub-part and a childless second part: the two sub-parts and the second part are kept. |
| `Outline.FlowOf` | App.tsx:263 | The custom flow is on exactly when the reduced outline is non-empty, with one step per section. |
| `Outline.CustomFlowIff` | App.tsx:219-263 | The custom flow is on exactly when the template parses and has sections. |
| `Outline.CompletedStepId` | App.tsx:288 | The completed step follows the appendix step; in the custom flow it is 2 + n + 1 for n sections. |
| `Outline.SectionLabel` | App.tsx:275 | A title of up to 25 characters is its own label; a longer one is cut to 25 characters followed by "...". |
| `Outline.AddSectionEntries` | App.tsx:273-278 | Entry 2 + k describes section k; the other entries are unchanged. |
| `Outline.CustomStepsInfo` | App.tsx:265-286 | The custom sidebar has entries 0 to n + 3: input, outline, one per section, the appendix and the completed step. |
| `Transitions.StandardPlan` | App.tsx:1401-1712 | The standard table has an entry for each step from Parts I–II to V–VI, and each entry moves forward, to at most COMPLETED. |
| `Transitions.NextStep` | App.tsx:1265-1712 | Every planned step lies after the current one and at most at the completed step. |
| `Transitions.NextStepDefinedIff` | App.tsx:1271-1715 | In the standard flow there is a prompt for the outline and for Parts I–II to V–VI. In the custom flow there is one for the outline and each section step. |
| `Transitions.StandardAppendIff` | App.tsx:1401-1712 | In the standard flow a reply is discarded exactly at a solution's writing step and at Parts V–VI. |
| `Transitions.CustomTransitions` | App.tsx:1271-1399 | The custom flow: the outline leads to the first section, each section to the next with its reply kept, and the last to the completed step with its reply dropped. |
| `Transitions.OutlineLeadsToStepTwo` | App.tsx:1271-1340 | In either flow the outline leads to step 2, and its reply is kept. |
| `Transitions.Walk` | App.tsx:1265-1712 | The steps visited by pressing "continue" start at the current step. |
| `Transitions.WalkIncreasing` | App.tsx:1265-1712 | The steps visited by repeated continuation strictly increase, so no step is generated twice. |
| `Transitions.WalkStopsWithoutPrompt` | App.tsx:1265-1712 | Repeated continuation ends exactly at the first step that has no prompt. |
| `Transitions.StandardTableFirstSolution` | App.tsx:1272-1529 | The input form has no prompt. The outline, Parts I–II and III and the first solution's review lead on with their replies kept; the first solution's reply is dropped. |
| `Transitions.StandardTableMiddleSolutions` | App.tsx:1530-1627 | The second and third solutions and their reviews. The third's review goes on to the fourth solution with more than three solutions, otherwise to Parts V–VI. |
| `Transitions.StandardTableLastSolutions` | App.tsx:1628-1713 | The fourth and fifth solutions and Parts V–VI; the appendix and completed steps have no entry. |
| `Transitions.StandardWalkUpToThreeSolutions` | App.tsx:1401-1705 | With at most three solutions, the walk from the outline skips solutions four and five. |
| `Transitions.StandardWalkMoreThanThreeSolutions` | App.tsx:1401-1705 | With more than three solutions, the walk visits all five solutions. |
| `Transitions.CustomWalkFromSection` | App.tsx:1342-1399 | From section k the custom flow visits every later section, then the completed step. |
| `Transitions.CustomWalk` | App.tsx:1271-1399 | The custom flow visits the outline, each section in order, then the completed step. |
| `Transitions.SolutionNumberFromStep` | App.tsx:1776-1785 | The result is at most 5. A non-zero result n means the step is solution n's review step. |
| `Transitions.ReviewStepIff` | App.tsx:1776-1797 | A step is a review step exactly when it has a solution number, and review step k has number k. |
| `Locator.SolutionMarker` | App.tsx:1958 | The marker `GIẢI PHÁP n ` is non-empty. |
| `Locator.Placeholder` | App.tsx:2035-2037 | The not-found notice is at least 100 characters long. |
| `Locator.FirstAcceptedMatch` | App.tsx:1907-1927 | The first pattern whose match is accepted gives the section start; -1 exactly when no match is accepted. |
| `Locator.AcceptedWithoutHeading` | App.tsx:1918-1925 | Without the description heading, every match is accepted. |
| `Locator.DetailedMarkerFrom` | App.tsx:1957-1985 | The first position from p where the marker occurs and the 1500 characters from it are more than 500 and name a sub-heading, or -1 when there is none; no earlier occurrence from p opens detailed text. |
| `Locator.FirstDetailedMarkerUnique` | App.tsx:1957-1985 | There is only one first occurrence that opens detailed text. |
| `Locator.FindDetailedMarker` | App.tsx:1957-1985 | The `indexOf` loop returns exactly that first detailed occurrence from the clamped section start. |
| `Locator.MinAbove` | App.tsx:2009-2011 | The least candidate above the bound, or Infinity when no candidate is above it. |
| `Locator.AfterEndMarker` | App.tsx:1993-2001 | After an end marker, the end lies past the whole marker and within the document. It is the closing rule when that starts within 500 characters of the marker, else just past the next blank line, else the document's end. |
| `Locator.SolutionEnd` | App.tsx:1987-2012 | With an end marker after the start, the end lies past that whole marker. Otherwise it is the least candidate more than 500 characters past the start (the next solution, Part V, the next rule, the document's end); there is none exactly when the document ends within 500 characters of the start. |
| `Locator.RangeKeepsEndMarker` | App.tsx:1990-2014 | Text ended by an end marker contains the whole marker. |
| `Locator.LastDetailedBeforeIsLast` | App.tsx:2021-2031 | Before index i, the scan's index holds a detailed piece and no piece after it up to i is detailed; -1 means none before i is. |
| `Locator.LastDetailedOfAll` | App.tsx:2021-2031 | Over all pieces, the scan gives -1 exactly when no trimmed piece names the solution, is over 500 characters and names an objective, procedure or first step; otherwise the index of the last such piece. |
| `Locator.ScanPartsBackward` | App.tsx:2021-2031 | The loop from the last piece down returns the index of the last detailed piece, or -1. |
| `Locator.NoMarkerNoDetailedPart` | App.tsx:2021-2031 | A document that never names the solution has no detailed piece. |
| `Locator.SectionStart` | App.tsx:1901-1926 | The first accepted Part IV heading, else the beginning of the document. |
| `Locator.SolutionStart` | App.tsx:1929-1985 | With a detailed heading match, the start is the section start plus that match (clamped to the document). Without one, it is the first marker occurrence from the section start that opens detailed text, or -1 when there is none. |
| `Locator.LocateStart` | App.tsx:1929-1985 | The start search returns exactly `SolutionStart`. |
| `Locator.ChosenContent` | App.tsx:2019-2037 | The content always has at least 100 characters. A located text of 500 characters or more is kept. A shorter one is replaced by the last detailed piece, trimmed, when there is one. With no detailed piece it is kept when it has 100 characters or more, and becomes the notice otherwise. |
| `Locator.ChooseContent` | App.tsx:2019-2037 | The fallbacks, run as the source runs them, give `Chosen`, whose cases `ChosenContent` states. |
| `Locator.StoredContent` | App.tsx:1901-2037 | What is stored for solution n: the fallbacks applied to the trimmed text from `SolutionStart` to the solution's end (empty without a start). It has at least 100 characters. |
| `Locator.NothingMarkedGivesNotice` | App.tsx:1929-2037 | With no detailed heading match and no mention of the solution anywhere in the document, there is no start and the stored content is the notice. |
| `Locator.LocateSolution` | App.tsx:1901-2037 | The locator returns `SolutionStart` and `StoredContent` for the document. |
| `Session.Save` | App.tsx:296-325 | The snapshot leaves the reference documents out and records only whether there were any. |
| `Session.Restore` | App.tsx:339-397 | Without saved settings only the error is set. Otherwise the restored state is not streaming, has no error, and the wizard shows the settings page. |
| `Session.SaveRestoreRoundTrip` | App.tsx:296-397 | Restoring a snapshot gives back the step, messages, document and solutions. The settings come back, except the reference documents and an absent template: those stay the current ones. |
| `Session.RestoreOwnSnapshot` | App.tsx:296-397 | Restoring a workspace's own snapshot changes only the streaming flag, the error, the wizard page, and (with an empty history and a stored key) the chat history. |
| `Session.AbsentTemplateKeepsCurrent` | App.tsx:342-347 | A snapshot without a template keeps the current template. |
| `Session.LoadCheck` | App.tsx:103-117 | A parsed snapshot past the input form is offered. An unreadable entry is removed. Anything else is left alone. |
| `Session.SavedSessionIsOffered` | App.tsx:296-325 | A snapshot saved under the save guard is always offered on load. |
| `Engine.RunLength` | App.tsx:1731-1750 | A run consumes its replies up to the first that is not retried, or all of them. |
| `Engine.RunLengthUnique` | App.tsx:1731-1750 | A run has exactly one length. |
| `Engine.RetriesAreUnbounded` | App.tsx:1731-1746 | Any number of rotated quota failures are all retried before a success. |
| `Engine.PartialReplyIsKept` | App.tsx:1717-1746 | A retried rate-limit failure keeps its partial text: the document gets the partial chunks, then the full reply. |
| `Engine.ApprovalKeyAsWrittenMissesSlots` | App.tsx:1799-1808 | The key `solution${n} ` names no declared slot. Writing it adds a sixth property and leaves every slot as it was. |
| `Engine.ApprovalKeyNamesSlot` | App.tsx:1799-1808 | The intended key is solution n's own slot. Writing it keeps the declared shape and stores that solution. |
| `Engine.ReviewKeepsShape` | App.tsx:2040-2047 | The review effect's write keeps the record's shape and changes no other solution. |
| `Engine.App.constructor` | App.tsx:193-214 | The initial state: the input form, no solutions, the upload page and an empty history; the key is the stored one. |
| `Engine.App.CheckSavedSessionOnLoad` | App.tsx:103-117 | The restore dialog opens exactly for an offered snapshot; an unreadable entry is removed. |
| `Engine.App.SaveSession` | App.tsx:296-325 | Saving changes no workspace field. Under the guard, and when the snapshot fits, the entry becomes the snapshot and the save time is shown; otherwise nothing changes. |
| `Engine.App.RestoreSession` | App.tsx:339-397 | The workspace becomes `Session.Restore` of the old one, with the stored key deciding the chat history. |
| `Engine.App.ContinueSession` | App.tsx:2586-2590 | The pending snapshot is restored, and the dialog closed and cleared. |
| `Engine.App.StartNewSession` | App.tsx:2577-2581 | The workspace is unchanged; the saved entry is removed, and the dialog closed and cleared. |
| `Engine.App.GenerateNextSection` | App.tsx:1265-1752 | Without a plan nothing changes and no reply is used. Otherwise the state is the planned step, the document plus the streamed text when the plan appends, and the error of a last failure that was not retried. The chat history is the one the last reply left (fresh after a retried failure), and the key is the last rotated one. |
| `Engine.App.RunPlan` | App.tsx:1715-1751 | The run consumes exactly the replies up to the first one not retried. The step is the planned one. The document gains the text of all those replies when the plan appends. The error is the last failure's when it was not retried. The chat history is the one the client recorded for the last reply, or a fresh one when that reply was retried. A rotated key is in use and stored. |
| `Engine.App.RunAttempt` | App.tsx:1715-1751 | One call appends its chunks when the plan appends, and the chat history becomes what the client recorded for it. A retried failure then re-initialises the client, leaving a fresh history, and installs the new key. Any other outcome leaves the key and storage as they were. |
| `Engine.App.StreamChunks` | App.tsx:1718-1727 | The streaming callback appends every chunk in arrival order when the plan appends, and nothing otherwise. |
| `Engine.App.ReviewEffect` | App.tsx:1886-2054 | The effect runs exactly at a review step with no reply streaming; otherwise nothing changes. When it runs, solution n's slot receives `StoredContent` of the document it saw, approved, with no revisions; that is the located text, a detailed piece or the notice, always at least 100 characters. Then the next section is generated from the state it saw. |
| `Engine.App.StoreLocatedSolution` | App.tsx:2019-2047 | Solution n's slot, and nothing else in the record, receives `StoredContent` of the document, approved. |
| `Engine.App.ApproveSolutionAsWritten` | App.tsx:1799-1818 | As written: the content is stored under `solution${n} ` with a trailing space, the dialog is closed, and the next section is generated as `GenerateNextSection` states. |
| `Engine.App.ApproveSolution` | App.tsx:1799-1818 | Corrected: the content goes to solution n's own slot, keeping the declared shape at a review step. The dialog is closed, and the next section is generated as `GenerateNextSection` states. |
| `Markdown.HashRun` | services/docxExporter.ts:186 | The run of `#` from i ends at the first other character. |
| `Markdown.DigitRun` | services/docxExporter.ts:198 | The run of digits from i ends at the first non-digit. |
| `Markdown.MatchHeading` | services/docxExporter.ts:186-195 | A match gives a level of 1 to 6 hashes followed by whitespace and content. The content starts with a non-space and holds no line terminator. |
| `Markdown.HeadingLineMatches` | services/docxExporter.ts:186-195 | Conversely, 1 to 6 hashes, whitespace and a text starting with a non-space match. The level is the number of hashes and the content is the text. |
| `Markdown.StripMarkerTrimmed` | services/docxExporter.ts:200-212 | The item of a trimmed item line is non-empty and trimmed. |
| `Markdown.KeptCells` | services/docxExporter.ts:223-225 | Every kept cell is non-empty and not a separator, and there are no more kept cells than cells. |
| `Markdown.RunEnd` | services/docxExporter.ts:200-222 | A run ends at the first line that does not continue it. |
| `Markdown.RunItems` | services/docxExporter.ts:200-203 | A run of list lines gives one item per line. |
| `Markdown.TableRows` | services/docxExporter.ts:222-230 | Every table row has a cell, and every cell is kept. |
| `Markdown.CodeEnd` | services/docxExporter.ts:241-244 | A code block ends at the first line whose trimmed text starts with a fence. |
| `Markdown.Step` | services/docxExporter.ts:176-253 | Each turn of the loop moves the cursor forward by at least one line. |
| `Markdown.StepWellFormed` | services/docxExporter.ts:176-253 | Each element one turn emits is well formed. |
| `Markdown.HeadingWellFormed` | services/docxExporter.ts:186-195 | A heading has a level of 1 to 6 and non-empty content. |
| `Markdown.ListWellFormed` | services/docxExporter.ts:198-217 | A list has items, and each item is non-empty and trimmed. |
| `Markdown.ParseFromWellFormed` | services/docxExporter.ts:171-256 | Every element the parser emits is well formed. |
| `Markdown.ParseMarkdown` | services/docxExporter.ts:171-256 | The loop returns the elements of the lines in order, each well formed. |
| `Markdown.ParseLine` | services/docxExporter.ts:177-252 | The loop body, its tests in the source order, does what one turn does. |
| `Markdown.StepLineCases` | services/docxExporter.ts:180-252 | The branches for lines that make one element: a blank line emits nothing, a heading line one heading, and a line that opens no block one paragraph of its trimmed text. Each moves on one line. |
| `Markdown.StepListCases` | services/docxExporter.ts:198-217 | An ordered item line, then a bullet item line, opens one list of the items up to the end of the run, and the cursor moves to that end. |
| `Markdown.StepTableCase` | services/docxExporter.ts:220-235 | A line holding `\|` opens a table over the run of lines holding `\|`, emitted only when some row keeps a cell, and the cursor moves to the run's end. |
| `Markdown.StepCodeCase` | services/docxExporter.ts:238-248 | A fence opens one code element of the trimmed lines up to the closing fence, and the cursor moves past that fence. |
| `Markdown.CollectItems` | services/docxExporter.ts:199-203 | The list loop stops at the run's end and collects the stripped items. |
| `Markdown.CollectRows` | services/docxExporter.ts:221-230 | The table loop stops at the run's end and collects the rows with cells. |
| `Markdown.CollectCode` | services/docxExporter.ts:239-244 | The code loop stops at the closing fence and collects the raw lines, each followed by a newline. |
| `Markdown.ParseFromBound` | services/docxExporter.ts:176-253 | The parser emits at most one element per line. |
| `Markdown.PlainLinesAreParagraphs` | services/docxExporter.ts:250-252 | Lines that open no block become one paragraph each, of their trimmed text. |
| `Markdown.SevenHashesIsParagraph` | services/docxExporter.ts:186 | Seven hashes are not a heading: the line is a paragraph. |
| `Markdown.HeadingBeforeTable` | services/docxExporter.ts:186-220 | A heading holding `\|` is a heading, not a table. |
| `Markdown.NoKeptCellNoCells` | services/docxExporter.ts:223-228 | A line whose cells are all blank or separators keeps no cell, so it adds no row. |
| `Markdown.KeptCellsKeepsFirst` | services/docxExporter.ts:223-225 | A cell that survives the filter is kept, trimmed, in its place. |
| `Markdown.SeparatorCellsAreDropped` | services/docxExporter.ts:225 | The cells of a separator row such as `\| --- \| :-: \|` are dropped. |
| `Markdown.UnclosedCodeBlockRunsToEnd` | services/docxExporter.ts:238-247 | A code block without a closing fence takes every remaining line: the rest of the document is one code element of the trimmed text. |
| `DocxLayout.HeadingLevelMapping` | services/docxExporter.ts:267-271 | Levels 1–3 keep their own heading style, and levels 4 and deeper share the fourth. |
| `DocxLayout.NatToStringInjective` | services/docxExporter.ts:288 | Different counters give different decimal texts. |
| `DocxLayout.ListReferenceInjective` | services/docxExporter.ts:288 | Two list references agree only for the same kind of list and the same counter. |
| `DocxLayout.MaxCols` | services/docxExporter.ts:315 | The widest row's length: no row is longer, and some row has it. |
| `DocxLayout.ConfigsMatchLists` | services/docxExporter.ts:287-309 | Each list adds exactly one numbering definition. The k-th list's definition is `numbered-k` or `bullet-k`, with the matching format. |
| `DocxLayout.ReferencesDistinct` | services/docxExporter.ts:288-309 | No two numbering definitions of one export share a reference. |
| `DocxLayout.ListRendering` | services/docxExporter.ts:302-308 | A list becomes one paragraph per item, in order, each numbered with the list's reference. |
| `DocxLayout.TableRendering` | services/docxExporter.ts:313-346 | A table has as many columns as its widest row, each of the same width. Only the first row is the header and shaded. Every row is padded with empty cells, and every cell is centred. |
| `DocxLayout.ColumnWidthFills` | services/docxExporter.ts:316 | The columns fill the 9360-unit text width as far as whole units allow. |
| `DocxLayout.RenderRowShape` | services/docxExporter.ts:320-340 | A rendered row has the row's own cells, then empty ones, each centred. |
| `DocxLayout.PaddedShape` | services/docxExporter.ts:322-325 | The padded row has n cells: the row's own, then empty ones. |
| `DocxLayout.CodeRendering` | services/docxExporter.ts:350-364 | A code block becomes one paragraph per line and a spacer, and the lines join back to the content. |
| `DocxLayout.ElementAligned` | services/docxExporter.ts:279-336 | Each block of one element is aligned as content: a body paragraph is justified, every table cell is centred, and none is a header line. |
| `DocxLayout.RenderAlignment` | services/docxExporter.ts:261-370 | In the rendered content, centring comes only from table cells: body paragraphs are justified, and none of the header's centred lines occurs. |
| `DocxLayout.NumberingConfigList.constructor` | services/docxExporter.ts:447 | The caller's numbering list starts empty. |
| `DocxLayout.NumberingConfigList.Push` | services/docxExporter.ts:291-300 | A push appends one definition. |
| `DocxLayout.ElementsToDocxChildren` | services/docxExporter.ts:261-370 | The loop returns the layout of the elements. It appends to the caller's list exactly the definitions of their lists, numbered from 0. |
| `DocxLayout.ElementToDocx` | services/docxExporter.ts:266-366 | One turn of the `switch`: the blocks of that element at the current list counter. A list pushes its one numbering definition; other elements push none. |
| `DocxLayout.RenderListItems` | services/docxExporter.ts:302-308 | The item loop gives one numbered paragraph per item. |
| `DocxLayout.RenderTable` | services/docxExporter.ts:313-346 | The table code builds the table layout of its rows. |
| `DocxLayout.PadRow` | services/docxExporter.ts:322-325 | The padding loop pads the row to the column count. |
| `DocxLayout.RenderCode` | services/docxExporter.ts:350-364 | The code loop gives one paragraph per line, then the spacer. |
| `DocxLayout.FieldValue` | services/docxExporter.ts:410-419 | A field shows its mapped value when that is non-empty, and the dotted placeholder otherwise. The applicant's name always shows the placeholder. |
| `DocxLayout.GenerateSKKNHeader` | services/docxExporter.ts:375-435 | The three fixed lines come first. With fields, the title follows, then one line per field in order with its caption and value, then a spacer of 400; without fields nothing follows. |
| `DocxLayout.ExportMarkdownToDocx` | services/docxExporter.ts:440-453 | The body is the header when one is included, followed by the layout of the parsed Markdown. Its first blocks are exactly that header for the given fields and details. The header is included exactly when fields are non-empty and user details are given, and the body starts with a header line exactly then. After the header, body text is justified and table cells are centred, so content that opens with a table starts centred without a header. The numbering definitions are those of the rendered lists. |
| `JsStrings.Trim` | services/docxExporter.ts:177 | `trim`: the result has no whitespace or line terminator at either end, and is empty exactly when the text is all whitespace. |
| `JsStrings.TrimBounds` | App.tsx:2023 | The trimmed text is the stretch of the text between a whitespace-only prefix and a whitespace-only suffix. |
| `JsStrings.IndexOf` | App.tsx:1962 | `indexOf(pat, from)`: the first occurrence at or after the clamped start, or -1 when there is none. |
| `JsStrings.IncludesIff` | App.tsx:2025 | `includes` holds exactly when `indexOf` from 0 finds the pattern. |
| `JsStrings.Substring` | App.tsx:1966 | `substring(a, b)`: the text between the two clamped bounds, in either order. |
| `JsStrings.Split` | services/docxExporter.ts:172 | `split` on one character: at least one piece, and no piece holds the separator. |
| `JsStrings.JoinSplit` | services/docxExporter.ts:351 | Joining the pieces of a split with the same separator gives back the text. |
| `JsStrings.NatToString` | services/docxExporter.ts:288 | A counter in a template literal is a non-empty run of decimal digits. |
| `Subjects.FirstNumbers` | data/subjectsData.ts:12-29 | The first 18 entries are numbered 1 to 18. |
| `Subjects.SecondNumbers` | data/subjectsData.ts:30-47 | The next 18 entries are numbered 19 to 36. |
| `Subjects.ThirdNumbers` | data/subjectsData.ts:48-65 | The last 18 entries are numbered 37 to 54. |
| `Subjects.TableIds` | data/subjectsData.ts:11-66 | The table has 54 entries, numbered 1 to 54 in order. |
| `Subjects.TableEntriesDistinct` | data/subjectsData.ts:11-66 | No entry appears twice in the table. |
| `Subjects.FirstMatch` | data/subjectsData.ts:80-84 | The first accepted index from i: it is accepted and none before it is, or -1 when none is. |
| `Subjects.Find` | data/subjectsData.ts:80-84 | `find`: nothing exactly when no entry is accepted. Otherwise the first accepted entry. |
| `Subjects.Filter` | data/subjectsData.ts:87-98 | `filter`: an entry is in the result exactly when it is in the table and accepted, and an accepted entry occurs as often as in the table. |
| `Subjects.FilterKeepsOrder` | data/subjectsData.ts:87-98 | The filter's result is a subsequence of the table, in table order. |
| `Subjects.GetSubjectInfo` | data/subjectsData.ts:80-84 | The first entry whose name equals the query up to case, or nothing exactly when no name does. |
| `Subjects.GetSubjectDescription` | data/subjectsData.ts:72-77 | A description exactly when `getSubjectInfo` finds an entry, and it is that entry's description. |
| `Subjects.GetSubjectsByGroup` | data/subjectsData.ts:87-89 | Exactly the entries of that group, compared case-sensitively, each as often as in the table, in table order. |
| `Subjects.SearchSubjects` | data/subjectsData.ts:92-98 | A query that trims to nothing returns the table. Otherwise exactly the entries whose lower-cased name or group contains the lower-cased query, each as often as in the table, in table order. |
| `Subjects.SearchFindsGroup` | data/subjectsData.ts:87-98 | Searching for a group's name finds every entry of that group. |
| `Subjects.SearchFindsNamedSubject` | data/subjectsData.ts:80-98 | Searching for a name that `getSubjectInfo` resolves finds that entry. |
| `Subjects.BelowIrreflexive` | data/subjectsData.ts:69 | The default sort order is irreflexive. |
| `Subjects.BelowTransitive` | data/subjectsData.ts:69 | The default sort order is transitive. |
| `Subjects.BelowTotal` | data/subjectsData.ts:69 | The default sort order relates any two different strings. |
| `Subjects.Distinct` | data/subjectsData.ts:69 | `[...new Set(xs)]` has the same values as xs, each once. |
| `Subjects.InsertSorted` | data/subjectsData.ts:69 | Inserting into a sorted list keeps it sorted. |
| `Subjects.SortSorted` | data/subjectsData.ts:69 | The sort's result is sorted and a permutation of its input. |
| `Subjects.SortedDistinctIsStrict` | data/subjectsData.ts:69 | A sorted permutation of distinct values is strictly increasing. |
| `Subjects.SubjectGroups` | data/subjectsData.ts:69 | `SUBJECT_GROUPS` holds every group of the table exactly once, in strictly increasing order. |

## Left out

- Calls to the language model (`sendMessageStream`, `initializeGeminiChat`, the chat history's getter and setter) and the key pool are foreign services. A reply is a given sequence of chunks with an outcome and the history the client holds after it, and a key rotation is a given result. What the client records for an exchange is therefore an input, not computed. services/geminiService.ts is not part of this model.
- Timers are left out: the two-second auto-save debounce, and the 100 ms and 500 ms delays before the next section or a retry. Engine.App.ReviewEffect makes the call to `generateNextSection` at once, from the state the effect saw; what other events could do during the 100 ms, and the effect re-running as the document changes, are not modelled. A retry is the next iteration of the run loop. Between a retried failure and its retry the source is idle for 500 ms, with `isStreaming` false and the step already moved (App.tsx:1744-1745). When the planned step is a review step, the review effect fires in that gap: it approves the solution and starts the next section, and then the stale retry also runs. Engine.App.RunPlan runs the retry at once, so that interleaving is not modelled.
- Locator.FindDetailedMarker requires a non-empty marker. The marker it is called with, `GIẢI PHÁP n `, is never empty (Locator.SolutionMarker); with an empty one the source's loop would not terminate.
- localStorage, sessionStorage and JSON are modelled as records. A parse failure is an entry state of its own, and `undefined` fields are absent options.
- The prompt texts, including `truncateForPrompt`'s notice text, are not modelled; only which prompt is chosen and the numbers the notice carries are.
- The locator's regular expressions (the Part IV headings, the detailed headings, the detail test, the split on rules and the Part V search) are given as their results on the document. The locator's own `indexOf` searches, bounds and fallbacks are modelled.
- `Math.round` on floating-point products is modelled as integer half-up rounding of the exact quotient (`pages * 0.05` as pages/20, `pages * 0.85` as 17·pages/20). This can differ from the code only where the float product misrounds a half.
- Lengths and indices count characters, where JavaScript counts UTF-16 code units. A character outside the Basic Multilingual Plane, such as the 📋 in the description heading (U+1F4CB, two code units), counts once here and twice in the source. In a document that holds such characters, the locator's offsets therefore differ from the source's: `startIdx + 100`, `startIdx + 500`, `endIdx + 20`, the 1500-character window after a marker, and the 100- and 500-character thresholds of the fallbacks (App.tsx:1962-2036). The truncation budget and page estimate (App.tsx:20-28) differ in the same way.
- `toLowerCase` is a parameter `lower` of the subject lookups, since Unicode case mapping is not modelled.
- The default `sort` compares UTF-16 code units, and the model compares characters. The two agree on the catalogue's group names, which are all in the Basic Multilingual Plane.
- Subjects.GetSubjectInfo, Subjects.GetSubjectsByGroup and Subjects.SearchSubjects take the table they read as a parameter; the application's lookups are these applied to `SubjectsData`.
- Subjects.GetSubjectInfo: does not state which catalogue entry a given name resolves to (entry names are not proved unique).
- The Word document library is left out: fonts, sizes, borders, indents, spacing other than the code and header spacers, and the `.docx` packing and download. Of the paragraph alignments, the explicit ones are modelled (justified body text, centred table cells and header lines). Headings, list items, code lines and field lines keep Word's default and carry no alignment here.
- `parseInlineFormatting` and `convertLatexToUnicode` (bold and italic runs, formulas) are left out. A paragraph carries its raw text.
- The order of `Object.entries` over header fields is taken to be the given order. JavaScript moves integer-like keys first; that reordering is not modelled.
- The `fieldMapping` lookup of keys inherited from `Object.prototype` (such as `constructor`) is not modelled. Such a key shows the placeholder here.
- DocxLayout.ColumnWidth: a table without columns cannot reach the layout, since rows without cells are dropped. The model gives width 0 there, where the code would divide by zero.
- The React UI is left out, and so are the template upload page (`components/TemplateUploadStep.tsx`) and the manual revise and retry buttons.
- The mount-time restore of the reference documents from sessionStorage is a storage side effect and is left out.
- The fallback to an API key from the environment is left out.

## Findings

| source | as written | input that shows it | evidently intended | confidence | as-written member | corrected member |
|---|---|---|---|---|---|---|
| App.tsx:1805 | `handleApproveSolution` stores the approved solution under `` `solution${solutionNum} ` ``, with a trailing space. App.tsx defines the handler at line 1799 and never calls it: the review effect approves automatically, so in App.tsx as it stands the wrong key is latent. | Approving at the first review step (step 5) writes the property `"solution1 "`. `solution1` stays as it was, and the record gains a sixth property. | The key `` `solution${solutionNum}` ``, as the review effect writes at App.tsx:2042, naming the declared slot. | not executed | `Engine.App.ApproveSolutionAsWritten`, `Engine.ApprovalKeyAsWrittenMissesSlots` | `Engine.App.ApproveSolution`, `Engine.ApprovalKeyNamesSlot` |
