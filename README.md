# AI All Ears — verified model of the page script's core

AI All Ears is a single-page tool. A user dictates or types a description of
the website they want, answers a few interview questions and picks a tier.
The page then produces a build-ready project brief as text, plus a
machine-readable record of the same inputs. Everything lives in one
browser script, `all-ears.js`. This project models the deterministic logic
inside that script and proves what it does:

- **Text helpers** (`text.dfy`, module `Text`).
  - JavaScript's `trim` over the ECMAScript white-space set.
  - `split` on runs of delimiters, `filter(Boolean)`, `slice(0, n)` with its negative-end rule, and `join`.
  - The word counter `countWords`, and the list normaliser `normalizeList` used for the free-form features answer.
- **Undo history** (`history.dfy`, module `History`). The bounded, de-duplicating snapshot stack behind `pushUndo` and `doUndo`, as pure functions on `seq<string>`.
- **Transcript accumulation** (`transcript.dfy`, module `Transcript`).
  - The `for` loop of the recognition `onresult` handler is the method `Accumulate`.
  - It is proved against the specification functions `FinalText` and `InterimText`.
  - The preview rule is the function `Preview`.
- **Page state** (`editor.dfy`, module `Editor`). The class `Editor` holds four fields:
  - the draft (the vision text box);
  - the live buffer of final dictated text;
  - the live preview;
  - the undo stack.

  Its methods are the handlers that change those fields: restore at start-up (the constructor), `pushUndo`, `doUndo`, the text box's `input` handler, the start of a dictation session, `onresult`, `insertLive` and the Clear button.
- **Brief synthesis** (`brief.dfy`, module `Brief`).
  - Tier lookup with its fallback, and the `Set`-based feature merge with its caps of 30 and 50.
  - The page list, built by threshold pushes (method `BuildPages`) and cut to the tier's page count.
  - The brief document as a sequence of lines, and the record that `buildJSON` returns (before serialisation).
  - `generate` with its two gates: consent, and "a vision or at least one answer".

Some facts about `all-ears.js` that the model follows closely:

- Final transcripts are only trimmed and collected in the live buffer, each followed by one space. They reach the draft only through `insertLive`, which appends the trimmed preview after a blank line.
- The sitemap is `pages.slice(0, t.pages)`. It grows with the page budget only for budgets of zero or more, because a negative end counts back from the length; see `Brief.SitemapMonotone` below.
- `buildJSON` records no goals, no page list and no CTA text. `Brief.BuildRecord` holds exactly the fields the object literal has.

## Model

| member | source | states |
|---|---|---|
| Text.Trim | all-ears.js:90 | the result has no white space at either end and is no longer than the input; it is empty exactly when the input is all white space; an already trimmed string is returned unchanged; trimming adds no comma or newline |
| Text.TrimInfix | all-ears.js:90 | what trim returns is the part of the input that sits between a leading and a trailing run of white space |
| Text.Split | all-ears.js:92 | `split(/\s+/)` and `split(/[\n,]+/)` always give at least one piece; no piece holds a delimiter; the first piece is empty exactly when the input is empty or starts with a delimiter |
| Text.SplitIsSplitOf | all-ears.js:244 | split cuts its input at the maximal delimiter runs: with the runs (`Seps`) between them, the pieces spell the input again (`Weave`); no piece holds a delimiter, every run is non-empty, and only the first and last piece can be empty |
| Text.SplitUnique | all-ears.js:244 | that cut is unique: any pieces and runs that rebuild the input under those conditions are exactly the pieces split returns, so the boundaries of every piece are fixed |
| Text.SplitKeepsCharacters | all-ears.js:244 | concatenating the pieces gives back the input minus its delimiters, in order, so splitting loses nothing else |
| Text.NonEmpty | all-ears.js:246 | `filter(Boolean)` keeps exactly the non-empty strings: every kept string is non-empty and comes from the input, and every non-empty input string is kept |
| Text.NonEmptyAppend | all-ears.js:246 | the filter keeps the input order: filtering a concatenation is filtering each part and concatenating |
| Text.TrimAll | all-ears.js:245 | `map(s => s.trim())` keeps the length and trims each entry in place |
| Text.SliceTo | all-ears.js:247 | `slice(0, end)` returns a prefix of the input; its length is min(end, length) for end ≥ 0, and length + end (at least 0) for a negative end |
| Text.CountWords | all-ears.js:89-93 | the count is 0 exactly when the text is empty or all white space |
| Text.CountWordsCountsRuns | all-ears.js:89-93 | countWords equals the number of maximal runs of non-white-space characters, as counted by an independent left-to-right scan (`Runs`) |
| Text.SplitCountsRuns | all-ears.js:92 | the non-empty pieces of split are exactly as many as the runs the reference scan counts |
| Text.RunsTrim | all-ears.js:90-92 | trimming before splitting removes no word |
| Text.NormalizeList | all-ears.js:240-248 | empty input gives []; at most 25 items; each item is non-empty, trimmed and free of ',' and '\n' |
| Text.NormalizeListFields | all-ears.js:240-248 | for any input and any cut of it at its comma and newline runs, normalizeList returns the first 25 of the trimmed, non-empty fields, in order |
| Text.SplitJoin | all-ears.js:244 | `Text.Join` with a separator made of delimiters is undone by split: items that are non-empty and free of delimiters come back unchanged |
| Text.NormalizeListRoundTrip | all-ears.js:240-248 | joining up to 25 normalised items with commas and normalising again gives back the same items in the same order |
| History.Push | all-ears.js:73-78 | the pushed value is on top; pushing the current top changes nothing; otherwise the new stack is the old one (less its oldest entry once it holds 25) with the value appended; at most 25 entries with no two equal neighbours is preserved |
| History.Undo | all-ears.js:80-86 | nothing happens with fewer than two entries; otherwise exactly the top is removed and the restored draft is the new top; the stack invariant is preserved |
| History.PushAllKeepsWellFormed | all-ears.js:73-78 | after any sequence of pushes the stack has at most 25 entries, has no two equal neighbours, and holds the last pushed value on top |
| History.PushIdempotent | all-ears.js:73-74 | pushing the same value twice is the same as pushing it once |
| History.PushThenUndo | all-ears.js:73-86 | undo right after a push that changed the top restores the previous top, and the stack is the one before the push (less the entry evicted at the cap) |
| History.UndoSmallStacks | all-ears.js:80-86 | undo on one entry is a no-op; on [a, b] it gives [a] with draft a |
| History.ClearThenUndoLosesText | all-ears.js:443-445 | the concrete sequence of events behind the finding below: typing "" then "a" leaves ["", "a"]; Clear's push of the old draft "a" is skipped; undo then restores "" |
| History.PushEdit | all-ears.js:443-445 | corrected snapshot for an edit the page makes itself: the old and the new text are both pushed; the stack invariant holds and the new text is on top |
| History.UndoAfterEditRestores | all-ears.js:80-86 | after PushEdit of an edit that changed the text, one undo restores the text before the edit, whatever the stack held |
| Transcript.Accumulate | all-ears.js:187-195 | the loop from resultIndex to the end leaves the buffer equal to the old buffer plus FinalText of the pending results, and the interim text equal to InterimText of those results alone (nothing carried over from earlier events); a resultIndex past the end changes nothing |
| Transcript.Preview | all-ears.js:198-199 | the preview is never empty and never padded; it is "—" when the buffer plus the interim text trims to nothing, and that trimmed text otherwise |
| Transcript.FinalTextAppend | all-ears.js:187-192 | batching invariance: results handed over across two events add the same text to the buffer as the same results in one event |
| Transcript.FinalTextEmptyIff | all-ears.js:189-191 | the buffer gains nothing exactly when every pending result is interim or trims to nothing; otherwise what it gains ends in a space |
| Transcript.FinalTextShape | all-ears.js:191 | what the buffer gains starts with a non-space character, and its last character is a single space that follows a non-space character |
| Editor.Inserted | all-ears.js:232 | the new draft ends with the live text; a non-empty old draft contributes its trimmed text and a blank line in front; an empty draft gives just the live text |
| Editor.InsertedDiffers | all-ears.js:229-232 | inserting non-empty trimmed text always changes the draft |
| Editor.InsertThenUndoRestores | all-ears.js:228-232 | with the corrected snapshots (PushEdit), one undo after an insertion restores the draft as it was before |
| Editor.Editor.constructor | all-ears.js:133-146 | at start-up the draft is the restored text, the undo stack holds exactly that one snapshot, and the buffer is empty |
| Editor.Editor.PushUndo | all-ears.js:73-78 | the undo stack becomes Push of the old stack; only the stack changes; the invariant is kept |
| Editor.Editor.DoUndo | all-ears.js:80-86 | reports true exactly when there were at least two snapshots; the stack and draft become what Undo gives, or stay as they were |
| Editor.Editor.Input | all-ears.js:457-461 | the input handler pushes the new text: the draft is the typed text and the stack is Push of the old stack with that text |
| Editor.Editor.StartListening | all-ears.js:177-178 | a new session empties the buffer and shows "Listening…" |
| Editor.Editor.OnResult | all-ears.js:186-200 | the buffer only grows, by the final text of the pending results; the preview is rebuilt from the new buffer and this event's interim text |
| Editor.Editor.InsertLive | all-ears.js:228-237 | does nothing exactly when the trimmed preview is empty, "—" or "Listening…"; otherwise pushes the old draft, sets the draft to Inserted(old draft, trimmed preview) and resets the buffer and the preview |
| Editor.Editor.Clear | all-ears.js:443-450 | pushes the old draft, empties the draft and the buffer, and shows "—"; the stack invariant is kept |
| Brief.GetTier | all-ears.js:250-253 | the selected key, or "starter" when none is selected, is looked up in the catalogue; an unknown key gives a tier labelled with the key, with 3 pages, no features and the CTA "Launch" |
| Brief.Dedup | all-ears.js:265 | `[...new Set(xs)]` has no repeats and the same members as xs |
| Brief.DedupPrefix | all-ears.js:265 | deduplicating a longer list keeps the shorter list's deduplication as a prefix (first occurrences keep their places) |
| Brief.DedupDistinct | all-ears.js:265 | a list without repeats is left unchanged |
| Brief.MergeFeatures | all-ears.js:264-265 | with the user's list `Brief.WantedFeatures` (`featuresWanted`, the normalised "features" answer), the merged features are the first min(cap, n) entries of the deduplicated tier-then-user list (n its length), in that order; so they have no repeats, respect the cap, come only from the tier's or the user's features, and all of them are present when everything fits |
| Brief.TierFeaturesFirst | all-ears.js:265 | the tier's deduplicated features, cut at the cap, open the merged list; a repeat-free tier list that fits appears unchanged at its head |
| Brief.BriefFeaturesPrefixRecord | all-ears.js:333-334 | the brief's feature list `Brief.MustHave` (`mustHave`, cap 30) is the first 30 of the record's list `Brief.RecordFeatures` (`mergedFeatures`, cap 50) |
| Brief.RecordAgreesWithBrief | all-ears.js:331-334 | the record's required features, cut to 30, are exactly the features the brief lists |
| Brief.PageList | all-ears.js:267-275 | the three base pages come first, and there are never more than 10 candidates |
| Brief.BuildPages | all-ears.js:267-275 | the conditional pushes build exactly PageList, with 3 pages plus 2 at 5, 2 at 7 and 3 at 10 |
| Brief.PageListMonotone | all-ears.js:273-275 | a larger page budget only adds pages at the end |
| Brief.SitemapSize | all-ears.js:308 | for a budget of 0 or more the sitemap (`Brief.Sitemap`, `pages.slice(0, t.pages)`) has min(budget, candidates) entries, never more than the budget |
| Brief.SitemapMonotone | all-ears.js:308 | for budgets of 0 or more, a larger budget never yields fewer pages; the smaller sitemap (`Brief.Sitemap`) is a prefix of the larger |
| Brief.NatToString | all-ears.js:308 | `${i + 1}` prints a non-empty string of decimal digits whose value (`DigitsValue`) is the number itself, with no leading zero |
| Brief.FeatureLines | all-ears.js:305 | section 2 has at least one line, and every line is a "- " bullet (the merged features pass through `Brief.Bullets`) |
| Brief.Business | all-ears.js:285 | the business_type answer when given; otherwise "<industry> business" when an industry is set; otherwise "a service business"; never empty |
| Brief.Goal | all-ears.js:284 | the primary_goal answer when given, otherwise the fixed goal "Generate leads and convert visitors into customers."; never empty |
| Brief.CopyBlocks | all-ears.js:287-292 | four copy blocks: the headline "Headline: “<tier CTA>: <business> website that converts.”", then the fixed subhead, CTA and trust lines |
| Brief.BuildBrief | all-ears.js:262-329 | the brief has 37 + (feature lines) + (sitemap pages) lines, opening with the title and the "Generated:" line; `Brief.BriefLayout` places every section after them |
| Brief.FeatureLinesShape | all-ears.js:305 | with no merged features the section is the single line "- Basic site + contact form" (the `t.features.join` fallback can never be non-empty there); otherwise there is one bullet per merged feature |
| Brief.Summary | all-ears.js:296-304 | section 1 is 8 lines: the business line from `Brief.Business`, the goal line from `Brief.Goal`, the industry keyword or "—", and the tier label with its page count printed by `Brief.IntToString`; it opens with a blank line and the heading "1) Business & Goal" and closes with a blank line and the heading "2) Must-Have Features" |
| Brief.Closing | all-ears.js:309-327 | sections 4-7 are 25 lines: the design section first, then a blank line and the heading "5) Content / Copy Blocks", the copy blocks from `Brief.CopyBlocks` as bullets on lines 8-11, then the technical notes and next actions, ending in "END OF BRIEF" |
| Brief.Bullets | all-ears.js:314 | one line per item, in order, each the item behind "- " (also the maps at all-ears.js:305 and :311) |
| Brief.Numbered | all-ears.js:308 | one line per page, in order, line i being the decimal `NatToString(i + 1)`, ". " and the page |
| Brief.BriefLayout | all-ears.js:294-328 | the document has 37 + (feature lines) + (sitemap pages) lines: the title, the timestamp, section 1 (`Brief.Summary`) on lines 2-9, the feature lines from line 10, a blank line and the sitemap heading right after them, then the pages numbered by `Brief.Numbered`, then sections 4-7 (`Brief.Closing`) to the end, "END OF BRIEF" last |
| Brief.BriefDeterministic | all-ears.js:294-296 | two briefs from the same data differ at most in the timestamp line |
| Brief.BuildRecord | all-ears.js:331-370 | every field of the object literal: tool "AI All Ears", the configured version or "1.0", the timestamp; language, tier key, tier label, pages, industry, consent and the two voice flags from the data; the questions and answers; the vision; the merged features (no repeats, at most 50), the fixed stack and deliverables |
| Brief.CollectAnswers | all-ears.js:116-123 | every question id keeps its answer, trimmed, and no other id appears |
| Brief.CollectData | all-ears.js:375-386 | the language is the form's, else the configured default, else "en-US" (never empty); the tier key and tier are the selected ones; the industry and the vision are trimmed; the consent, continuous and interim flags are copied; the answers are collected |
| Brief.Generate | all-ears.js:372-396 | refuses with the consent notice exactly when consent is required and not given (`Brief.ConsentGiven`, requireConsentOrWarn at all-ears.js:255-260); the content gate is `Brief.HasContent` (all-ears.js:389), and it refuses with the "nothing to summarise" notice exactly when consent is fine, the vision is all white space and every answer is all white space; otherwise the brief and the record are built from the same collected data |

## Left out

- DOM lookups, button enabling, status and badge texts, and the word-count display (`syncCountsAndSave` beyond its call of `countWords`): user interface only.
- `localStorage` (`readState`, `writeState`, autosave and the state parts of `restore`): I/O through a browser API. The constructor takes the restored draft as a parameter, and `applyAnswers` is not part of this model.
- The SpeechRecognition lifecycle (`startMic` except its two state resets, `stopMic`, `canUseMic`, `onstart`, `onerror`, `onend`): asynchronous callbacks into the browser engine. Only the body of `onresult` is modelled. A missing first alternative (`res[0]` absent or without a transcript) is modelled as the transcript "".
- Clipboard copy, file download and `setTimeout`: foreign calls and timers.
- Clock readings (`toLocaleString`, `toISOString`): they are the string parameters `localTime`/`generatedAt` and `isoTime`.
- `alert`: each alert is a `Notice` value in the `Refused` outcome of `Brief.Generate`.
- Serialisation: the brief is modelled as its lines, before `join("\n")`. The record is a datatype, before `JSON.stringify`.
- The interview question table is passed through `Brief.BuildRecord` as a sequence of strings. Its structure is not modelled.
- Tier data comes from a configuration object. `pages` is modelled as an integer and `features` as a list, with a missing list as []. Non-integer or non-numeric page counts are not modelled.
- Strings are sequences of Unicode scalar values rather than UTF-16 code units. Surrogate pairs are not modelled.
- Brief.SitemapMonotone: stated for budgets of 0 or more only. `slice(0, n)` with a negative n counts back from the end, so a budget of -1 lists two pages and a budget of 0 lists none.
- Brief.GetTier: the catalogue is a map, so a key is found only when it is an entry of the catalogue. JavaScript's `tiers[key] || …` on a plain object would also find inherited keys such as "constructor", and would fall back when an entry is falsy. Neither can happen while the tier selector only offers catalogue keys.
- Brief.SitemapSize: stated for budgets of 0 or more only, for the same reason. `Text.SliceTo` states the length for negative ends.

## Findings

| source | as written | input that shows it | evidently intended | confidence | as-written member | corrected member |
|---|---|---|---|---|---|---|
| all-ears.js:443-445 | Clear (and `insertLive` at all-ears.js:231) offers the draft as it is *before* the change to `pushUndo`. The `input` handler has already pushed that same text, so the push is skipped and no snapshot of the text after the change is taken. | Type "a" into an empty box: the stack is ["", "a"]. Press Clear: the stack stays ["", "a"] and the draft is "". Press Undo: "a" is popped and the draft becomes "", so the cleared text is not restored. | One undo right after Clear or an insertion restores the text as it was just before it. | not executed | History.ClearThenUndoLosesText | History.UndoAfterEditRestores |
