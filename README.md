# Image valuation: trial sequencing and response logging

This project models the engine behind a two-phase browser experiment on food images, class `ImageValuationExperiment` in `Experiment.js`, together with the trial methods that `TrialManager.js` adds to that class. It is written in Dafny.

- **Phase 1.** The participant views a shuffled mix of large and small images. Attention checks are placed after configured image positions.
- **Phase 2.** The participant sees the first Phase-1 images again ("old") mixed with unseen ones ("new"). For each image the participant answers three things:
  - whether they remember the image;
  - how much they would pay for it, on a slider from 0 to 400 cents;
  - how confident they are, on a slider from 0 to 100.
- **The log.** Every recorded Phase-1 image, every accepted attention-check answer and every accepted Phase-2 response adds one 25-column line to the CSV log. Slider moves and refused submits add nothing.

The model has these parts:

- `Images` (`Images.dfy`) builds the image sets, as `generateImageArrays` does.
  - The Fisher–Yates `shuffleArray` runs on an array copy and is proved to be a permutation.
  - The Phase-1 list has ids 1 .. N, each exactly once. The first `largeCount` ids are large and the rest small. The image with id j takes file j-1 of the shuffled file list.
  - The Phase-2 list holds copies of the first `oldImagesCount` Phase-1 records, overridden to medium and old. It also holds new records whose ids continue after the largest Phase-1 id. A Phase-2 record is old exactly when its id is a Phase-1 id.
- `Timeline` (`Timeline.dfy`) models the timeline loop of `startPhase1`/`startPhase2`. It is proved against a recursive reference definition `Steps`, with these properties:
  - the timeline's length;
  - each image's slot;
  - an attention step right after image i if and only if i is a configured position;
  - the image steps give the image list back in order;
  - the attention steps are numbered 0, 1, 2, … in order;
  - which question a check asks.
- `Csv` (`Csv.dfy`) models `escapeCSVField`, quoting in the style of rules 6 and 7 in section 2 of RFC 4180. It quotes only on a comma, a double quote or a line feed, and records end in a line feed. It also defines a record reader as the escaper's partner: every value read back after escaping is exactly the value that was escaped.
- `Decimal` (`Decimal.dfy`) prints numbers the way the log does, with a reader for each printer:
  - `String(n)` for a non-negative integer;
  - `(cents / 100).toFixed(2)` for the payment.
- `Records` (`Records.dfy`) builds the three row kinds: `phase1_image`, `attention_check` and `phase2_response`.
  - Each row has 25 columns, joined by `,` and ended by a line feed. Only the filename, memory answer, question id and attention answer columns are escaped.
  - It includes the cross-phase join: old/new classification, and `phase1_size` looked up in the sizes stored during Phase 1.
- `Experiment` (`Experiment.dfy`) models the object as a class. Its fields are updated by the handlers:
  - the constructor;
  - `generateImageArrays`;
  - `startPhase1`, `showNextPhase1Step`, the Phase-1 image timer's callback and `recordPhase1ImageData`;
  - the two attention-check submits;
  - `startPhase2`, `showNextPhase2Step` and `submitPhase2Response`;
  - the two slider handlers.

  Each method's `ensures` gives its new state as a function of the old one, except `GenerateImageArrays`: its new image lists are described by the properties they have (`IsPhase1Set`, `IsPhase2Set`), up to the shuffle order. The object keeps an invariant, `Valid`:
  - each timeline is the one built from its images;
  - the cursors stay in range;
  - Phase-1 ids are distinct;
  - a Phase-2 record is old exactly when its id is a Phase-1 id;
  - every stored size is the size of the Phase-1 record with that id;
  - every image the Phase-1 cursor has passed has its size stored;
  - the screen shows the step under the cursor.

  From this invariant the model proves two facts about a `phase2_response` row:
  - it never holds `unknown_size` for an old image;
  - it classifies every image correctly.

Some inputs are parameters of the handlers:
- The selected radio option and the memory answer are `Option<string>` arguments.
- Each `Math.random()` call is a supplied number in [0, 1).
- The clock values (response time and ISO timestamp) are opaque strings in a `Moment`.

What `document.body` shows is kept in a `screen` field. The image timer and the two attention-check Continue buttons require the screen that offers them. `startPhase2` requires the Phase-2 instructions screen, which is shown once the Phase-1 timeline has been walked to its end. `submitPhase2Response` checks the screen inside its guard, as the source checks that the payment slider exists. The two slider handlers may be called on any screen.

## Model

| member | source | states |
|---|---|---|
| Csv.EscapeField | public/js/experiment/TrialManager.js:10-19 | a field without comma, quote or line feed is returned unchanged; any other field is wrapped in double quotes |
| Csv.DoubleQuotes | public/js/experiment/TrialManager.js:16 | doubling the quotes leaves a quote-free string unchanged and neither adds nor removes commas or line feeds |
| Csv.QuotedFieldRoundTrip | public/js/experiment/TrialManager.js:15-16 | a value wrapped in quotes with its own quotes doubled reads back as exactly that value, with the rest of the record left over |
| Csv.BareFieldRoundTrip | public/js/experiment/TrialManager.js:18 | a value that needs no quotes, written as is, reads back as exactly that value |
| Csv.EscapeFieldRoundTrip | public/js/experiment/TrialManager.js:10-19 | reading an escaped field back recovers the original string, whatever it contains |
| Csv.RecordRoundTrip | public/js/experiment/TrialManager.js:472-501 | a record of escaped values joined by commas and ended by a line feed reads back into exactly those values |
| Decimal.NatToString | public/js/experiment/TrialManager.js:483 | String(n) is a non-empty string of digits with no leading zero and no comma, quote or line feed |
| Decimal.NatToStringRoundTrip | public/js/experiment/TrialManager.js:483 | reading the printed confidence gives the number back |
| Decimal.FormatCents | public/js/experiment/TrialManager.js:482 | the payment is dollars, a point and exactly two digits of cents |
| Decimal.FormatCentsRoundTrip | public/js/experiment/TrialManager.js:482 | the printed dollar amount denotes exactly the stored number of cents |
| Decimal.IntToString | public/js/experiment/TrialManager.js:182 | an image id prints as plain text; a non-negative id reads back as itself |
| Decimal.BoolToString | public/js/experiment/TrialManager.js:154 | attention_correct is the string "true" exactly when the answer was correct |
| Images.SizeName | public/js/experiment/TrialManager.js:184 | the size prints as 'large' exactly for large images and 'small' exactly for small ones |
| Images.At | public/js/experiment/Experiment.js:89 | reading the shuffled file list yields a file exactly when the index is in range (undefined otherwise) |
| Images.RandomIndex | public/js/experiment/Experiment.js:159 | Math.floor(u * (i + 1)) for u in [0, 1) is an index at most i |
| Images.SwappedSameMultiset | public/js/experiment/Experiment.js:160 | a swap keeps the multiset of elements |
| Images.SwapKeepsArrangement | public/js/experiment/Experiment.js:160 | after a swap the array is still the input reordered by a permutation |
| Images.Shuffle | public/js/experiment/Experiment.js:156-163 | the shuffled copy has the input's length and multiset; it is the input reordered by a permutation; lists of length 0 or 1 come back unchanged |
| Images.MaxId | public/js/experiment/Experiment.js:129 | the largest id of a non-empty list bounds every id and is one of them |
| Images.PermutedDistinct | public/js/experiment/Experiment.js:108 | reordering by a permutation keeps ids distinct |
| Images.Phase1RecordsPush | public/js/experiment/Experiment.js:86-105 | both Phase-1 loops push the next record: id n+1, file n, large while n < largeCount and small after |
| Images.Phase1RecordsAt | public/js/experiment/Experiment.js:86-105 | before shuffling, position k holds the record with id k+1 |
| Images.BuildPhase1Images | public/js/experiment/Experiment.js:80-108 | the Phase-1 list has largeCount + smallCount records, a permutation of the pushed records; ids 1 .. N occur once each; id j is large iff j <= largeCount and takes file j-1 of the shuffled files, which are a permutation of the old-image files |
| Images.Phase1SetSizes | public/js/experiment/Experiment.js:86-105 | in the Phase-1 list a record is large exactly when its id is at most largeCount |
| Images.ShuffledPhase1 | public/js/experiment/Experiment.js:107-108 | shuffling the pushed records yields exactly the Phase-1 set described above |
| Images.Phase1MaxId | public/js/experiment/Experiment.js:129 | with Phase-1 ids 1 .. N, the largest id is N, so new ids start at N + 1 (used by `GenerateImageArrays`) |
| Images.AsOld | public/js/experiment/Experiment.js:116-121 | an old Phase-2 copy keeps id, filename and original index, and is medium, phase 2 and old |
| Images.OldRecordsAt | public/js/experiment/Experiment.js:115-122 | the k-th old copy is the copy of the k-th (shuffled) Phase-1 record |
| Images.NewRecordsAt | public/js/experiment/Experiment.js:131-139 | the k-th new record is the one with id nextAvailableId + k and file k |
| Images.Phase2RecordsPush | public/js/experiment/Experiment.js:131-139 | the new-image loop pushes record n with id nextAvailableId + n, file n, medium, phase 2, not old |
| Images.Phase2RecordsAt | public/js/experiment/Experiment.js:113-139 | before shuffling, positions below oldImagesCount hold old copies and the rest the new records in order |
| Images.Phase2RecordsDistinct | public/js/experiment/Experiment.js:128-138 | with distinct Phase-1 ids and new ids above all of them, the Phase-2 ids are distinct |
| Images.BuildPhase2Images | public/js/experiment/Experiment.js:110-142 | the Phase-2 list has oldImagesCount + newImagesCount records, a permutation of the old copies and the new records with ids from max + 1; its ids are distinct; a record is old exactly when its id is a Phase-1 id; the new files are a permutation of the new-image files |
| Images.ShuffledPhase2 | public/js/experiment/Experiment.js:141-142 | shuffling the pushed Phase-2 records yields exactly the Phase-2 set described above |
| Images.ShuffledPhase2Records | public/js/experiment/Experiment.js:141-142 | the shuffled list keeps the multiset of the pushed records |
| Images.ShuffledPhase2Distinct | public/js/experiment/Experiment.js:129-142 | the shuffled Phase-2 ids are distinct when the Phase-1 ids are |
| Images.ShuffledPhase2Classified | public/js/experiment/Experiment.js:115-142 | every shuffled Phase-2 record carries isOld, true exactly when its id is a Phase-1 id |
| Images.Classified | public/js/experiment/Experiment.js:116-137 | an old copy has a Phase-1 id; a new record's id is above every Phase-1 id, so it is not one |
| Timeline.Steps | public/js/experiment/TrialManager.js:30-38 | the timeline of the first n images has n image steps plus one check per position in 1 .. n |
| Timeline.StepsAt | public/js/experiment/TrialManager.js:31-37 | image i sits at slot i-1 plus the number of earlier checks; a check follows it iff i is a position, and carries the count of positions up to i, minus one |
| Timeline.StepsImages | public/js/experiment/TrialManager.js:33 | the image steps, in order, are exactly the first n images |
| Timeline.StepsAttention | public/js/experiment/TrialManager.js:35-36 | the attention steps, in order, are numbered 0, 1, 2, … |
| Timeline.StepImageIn | public/js/experiment/TrialManager.js:33 | every image step holds one of the phase's images |
| Timeline.TimelineShape | public/js/experiment/TrialManager.js:30-38 | the whole timeline: length N + Hits, each image at its slot, a check right after image i iff i is a position, images in order, checks numbered 0, 1, 2, … |
| Timeline.BuildTimeline | public/js/experiment/TrialManager.js:28-39 | the loop of startPhase1 (and its copy at lines 218-229 of startPhase2), including its local attentionCheckCounter, builds exactly Steps(images, positions, N) |
| Timeline.HitsCountsPositions | public/js/experiment/TrialManager.js:35 | the number of checks is the number of distinct configured positions within 1 .. N |
| Timeline.DistinctCardinality | public/js/experiment/TrialManager.js:35 | a list of distinct positions has as many elements as its set |
| Timeline.CheckCountIsPositionCount | public/js/experiment/TrialManager.js:30-38 | with distinct positions within 1 .. N, the timeline has exactly one check per configured position |
| Timeline.ChecksAskPhaseQuestions | public/js/experiment/TrialManager.js:131-133 | a check numbered k asks question k in Phase 1 and question k + 2 in Phase 2, and every check of a timeline numbered 0 .. c-1 asks a question in that phase's range (QuestionIndex) |
| Timeline.PhasesAskDistinctQuestions | public/js/experiment/TrialManager.js:353-356 | with at most two checks in Phase 1, every Phase-1 check asks question 0 or 1 and every Phase-2 check a question from 2 on, so no question is asked in both phases |
| Records.Values | public/js/experiment/TrialManager.js:472-498 | every row has 25 columns |
| Records.Participant | public/js/experiment/TrialManager.js:140 | the participant column is the subject id, or 'unknown' when it is absent or empty |
| Records.ImageType | public/js/experiment/TrialManager.js:453-462 | image_type is 'old' exactly when a Phase-1 record has the image's id and 'new' otherwise |
| Records.Phase1SizeOf | public/js/experiment/TrialManager.js:454-459 | phase1_size is the stored size of an old image, 'unknown_size' exactly when an old image has none stored, and 'not_shown_in_phase1' exactly for a new image |
| Records.Cells | public/js/experiment/TrialManager.js:472-498 | exactly the filename, memory answer, question id and attention answer columns pass through escapeCSVField |
| Records.Row | public/js/experiment/TrialManager.js:501 | a row is non-empty and ends in a line feed |
| Records.RowReadsBack | public/js/experiment/TrialManager.js:472-501 | a row reads back into exactly its 25 values, whatever the escaped columns hold, when the unescaped ones hold no comma, quote or line feed |
| Records.Phase1Entry | public/js/experiment/TrialManager.js:178-204 | the phase1_image row needs no quoting in any column the source leaves unescaped, given plain identity and clock values |
| Records.Phase1Columns | public/js/experiment/TrialManager.js:178-204 | a phase1_image row carries the id, the filename, the display size and the clock and session values; the Phase-2, attention and all eight questionnaire columns are empty |
| Records.Phase1RowReadsBack | public/js/experiment/TrialManager.js:178-206 | a phase1_image row reads back into its 25 values |
| Records.AttentionEntry | public/js/experiment/TrialManager.js:398-424 | the attention_check row needs no quoting in any column the source leaves unescaped, given plain identity and clock values |
| Records.AttentionColumns | public/js/experiment/TrialManager.js:139-165 | an attention_check row carries the phase, the question id, the answer, and 'true' exactly when the answer equals the correct answer; the image columns and all eight questionnaire columns are empty |
| Records.AttentionRowReadsBack | public/js/experiment/TrialManager.js:398-425 | an attention_check row reads back into its 25 values |
| Records.Phase2Entry | public/js/experiment/TrialManager.js:472-498 | the phase2_response row needs no quoting in any column the source leaves unescaped, given plain identity and clock values |
| Records.Phase2Columns | public/js/experiment/TrialManager.js:472-498 | a phase2_response row carries the image, its old/new classification, its phase1_size (stored size, 'unknown_size' or 'not_shown_in_phase1'), the memory answer, and the clock and session values; the attention columns and all eight questionnaire columns are empty |
| Records.Phase2Amounts | public/js/experiment/TrialManager.js:482-483 | the payment column is dollars with two decimals and denotes the payment in cents; the confidence column denotes the confidence |
| Records.Phase2RowReadsBack | public/js/experiment/TrialManager.js:472-503 | a phase2_response row reads back into its 25 values |
| Experiment.RandomSliderValues | public/js/experiment/TrialManager.js:234-239 | the seeded payment lies in 0 .. 400 cents and the confidence in 0 .. 100 |
| Experiment.ImageValuationExperiment.constructor | public/js/experiment/Experiment.js:7-48 | the object starts in phase 1 with no images, an empty log, no stored sizes, no answers, both interaction flags down, and is valid |
| Experiment.ImageValuationExperiment.GenerateImageArrays | public/js/experiment/Experiment.js:76-149 | only the two image lists change; they are the Phase-1 and Phase-2 sets described above, and the largest Phase-1 id is N = largeCount + smallCount, so new ids continue from N + 1; the object stays valid |
| Experiment.ImageValuationExperiment.StartPhase1 | public/js/experiment/TrialManager.js:21-41 | phase 1 begins with the timeline built from the Phase-1 images and the cursor at 0, and its first step is shown |
| Experiment.ImageValuationExperiment.ShowNextPhase1Step | public/js/experiment/TrialManager.js:43-92 | past the end the Phase-2 instructions are shown; otherwise the image or the attention form of the step under the cursor; nothing else changes |
| Experiment.ImageValuationExperiment.RecordPhase1ImageData | public/js/experiment/TrialManager.js:171-209 | the image's size is stored under its id and exactly its phase1_image row is appended; nothing else changes |
| Experiment.ImageValuationExperiment.ImageTimerFired | public/js/experiment/TrialManager.js:84-88 | the shown image is recorded, the cursor moves on by exactly one and the next step is shown; the object stays valid |
| Experiment.ImageValuationExperiment.LogAndAdvancePhase1 | public/js/experiment/TrialManager.js:166-168 | exactly one row is appended, the Phase-1 cursor moves on by one and the next step is shown |
| Experiment.ImageValuationExperiment.SubmitPhase1AttentionCheck | public/js/experiment/TrialManager.js:125-169 | without a selected option nothing changes; with one, exactly the attention_check row for question k is appended, the cursor moves on by one and the next step is shown |
| Experiment.ImageValuationExperiment.StartPhase2 | public/js/experiment/TrialManager.js:211-231 | phase 2 begins with the timeline built from the Phase-2 images and the cursor at 0, and its first step is shown |
| Experiment.ImageValuationExperiment.ShowNextPhase2Step | public/js/experiment/TrialManager.js:241-351 | past the end the final questions are shown; on an image step the question screen comes up with the memory answer cleared, both flags down and the sliders seeded in range; on a check its form is shown |
| Experiment.ImageValuationExperiment.LogAndAdvancePhase2 | public/js/experiment/TrialManager.js:503-505 | exactly one row is appended, the Phase-2 cursor moves on by one and the next step is shown |
| Experiment.ImageValuationExperiment.SubmitPhase2AttentionCheck | public/js/experiment/TrialManager.js:384-428 | without a selected option nothing changes; with one, exactly the attention_check row for question k + 2 is appended, the cursor moves on by one and the next step is shown |
| Experiment.ImageValuationExperiment.SubmitPhase2Response | public/js/experiment/TrialManager.js:430-506 | unless ResponseComplete holds (a memory answer, the question screen, and both the payment and the confidence slider moved), nothing changes; otherwise exactly the phase2_response row of the image under the cursor is appended, the cursor moves on by one and the next step is shown |
| Experiment.ImageValuationExperiment.UpdateConfidence | public/js/experiment/TrialManager.js:508-512 | the confidence is stored and only sliderInteracted is raised; nothing else changes |
| Experiment.ImageValuationExperiment.UpdatePayment | public/js/experiment/TrialManager.js:514-520 | the payment in cents is stored and only paymentInteracted is raised; nothing else changes |
| Experiment.RecordedStaysCoherent | public/js/experiment/TrialManager.js:84-87 | storing the shown image's size and moving past it keeps the invariant, including "every passed image has its size stored" |
| Experiment.GeneratedStaysValid | public/js/experiment/Experiment.js:108-142 | installing lists with distinct Phase-1 ids and correctly classified Phase-2 records keeps the object valid |
| Experiment.EnterPhase1StepShows | public/js/experiment/TrialManager.js:43-92 | showing the step under the Phase-1 cursor keeps the invariant and shows that step |
| Experiment.EnterPhase2StepShows | public/js/experiment/TrialManager.js:241-351 | showing the step under the Phase-2 cursor keeps the invariant, shows that step and seeds the sliders in range |
| Experiment.AdvancePhase1StaysCoherent | public/js/experiment/TrialManager.js:166-167 | logging a row and moving past a Phase-1 check keeps the invariant |
| Experiment.AdvancePhase2StaysCoherent | public/js/experiment/TrialManager.js:425-426 | logging a row and moving past a Phase-2 step keeps the invariant |
| Experiment.Phase2KnowsSizes | public/js/experiment/TrialManager.js:175 | once Phase 2 has begun, every Phase-1 image has its own display size stored under its id |
| Experiment.ResponseRowClassifies | public/js/experiment/TrialManager.js:452-462 | in a valid object, the response row says 'old' exactly for the old Phase-2 records; an old image's phase1_size is the size of its Phase-1 record and never 'unknown_size'; a new image's is 'not_shown_in_phase1' |
| Experiment.ShownQuestionAwaitsSliders | public/js/experiment/TrialManager.js:250-254 | a question screen just shown refuses every submission, because neither slider has been moved |
| Experiment.MovesRaiseFlags | public/js/experiment/TrialManager.js:508-520 | slider moves change only the answer: a slider's flag is up afterwards exactly when it was up before or that slider was moved |
| Experiment.SliderMovesUnlockSubmit | public/js/experiment/TrialManager.js:432-447 | from a Phase-2 step just shown, any run of slider moves lets a submission through exactly when the step is an image, a memory answer is given and both sliders were moved; moving one slider alone still refuses it |
| Experiment.SlidersUnlockSubmit | public/js/experiment/TrialManager.js:432-447 | on the question screen, once both sliders have been moved, a memory answer is accepted |

## Left out

- Rendering: `document.body` templating, `getImageElement`, `showError`, the loading screens, the alerts, and the welcome, instruction and final-question pages. The model keeps only which screen is up, in `screen`.
- `init`, which fetches `/config.json`. The configuration and questions are constructor arguments.
- `preloadImages`. It only loads images asynchronously behind a progress counter.
- `getImageFilesFromFolder`. The two file lists are arguments of `GenerateImageArrays`.
- `setTimeout` and the display delay. Only the timer's callback is modelled, as `ImageTimerFired`.
- `Date.now`, `new Date().toISOString()` and the `toFixed(3)` response times. These are the opaque strings of a `Moment`.
- The start-time fields (`phase1StartTime`, `phase2StartTime`, `imageDisplayStartTime`, `imageQuestionStartTime`, `attentionCheckStartTime`, `sessionStartTime`), `finalAnswers` and `currentImageIndex`. Nothing in the core reads the times except to compute the logged response times, and `finalAnswers` belongs to the end-of-session questionnaire, which is not part of this model.
- `Math.random`. Every draw is a supplied number in [0, 1). The uniformity of the shuffle is not modelled; only that it permutes.
- The session-id generation. The id is a constructor argument.
- `console.log` output.
- The welcome page that sets `subjectId` is not part of this model. The field and its `'unknown'` fallback are kept, but no handler of the model sets it.
- `attentionCheckCounter`: every use resets it to 0 after the timeline loop. It is modelled as the local counter of `Timeline.BuildTimeline`, not as a field.
- `currentMemoryResponse`, `currentPaymentResponse`, `currentConfidence`, `sliderInteracted` and `paymentInteracted` are grouped into one `Answer` value. The constructor leaves `paymentInteracted` undefined, which the model reads as false.
- The source writes the small Phase-1 records with a loop from 0 and adds `largeCount` to the index. `Images.BuildPhase1Images` runs that loop's index from `largeCount` instead, with the same records.
- `Images.BuildPhase2Images` requires `oldImagesCount <= |phase1Images|`. Beyond that, the source spreads `undefined` into an old record that has no id.
- `Images.BuildPhase2Images` requires a non-empty Phase-1 list when new images are asked for. With no Phase-1 images, `Math.max()` is `-Infinity` and every new id is `-Infinity`.
- `Experiment.ImageValuationExperiment.GenerateImageArrays` carries both requirements above. It also requires that neither phase has started, which is where `init` calls it.
- `Experiment.ImageValuationExperiment.ShowNextPhase1Step` requires the built Phase-1 timeline. `Experiment.ImageValuationExperiment.ShowNextPhase2Step` requires phase 2. The source calls each only from those states.
- `Experiment.ImageValuationExperiment.ImageTimerFired`, `Experiment.ImageValuationExperiment.SubmitPhase1AttentionCheck` and `Experiment.ImageValuationExperiment.SubmitPhase2AttentionCheck` require the screen that offers their control; the source offers it only there.
- `Experiment.ImageValuationExperiment.StartPhase2` requires the Phase-2 instructions screen, that is, Phase 1 walked to its end. Its caller, the Phase-2 instructions page, is not part of this model. `Experiment.Phase2KnowsSizes` and `Experiment.ResponseRowClassifies` rest on this requirement: a Phase 2 started early could meet an old image whose size was never stored.
- Carriage returns are not quoted and records end in a line feed, not CRLF, as in the source; the reader in `Csv` follows the same convention rather than RFC 4180's CRLF.
- `Experiment.ImageValuationExperiment.SubmitPhase1AttentionCheck` and `Experiment.ImageValuationExperiment.SubmitPhase2AttentionCheck` also require the question bank to hold the question. The source would fail reading a missing one.
- `Experiment.ImageValuationExperiment.UpdateConfidence` and `Experiment.ImageValuationExperiment.UpdatePayment` take the slider's integer value in the slider's range (0 .. 100, 0 .. 400). `parseInt` of the slider's text is not modelled.
- Question ids, answers, file names and the participant id are strings. The source would also print non-zero numbers given there; a 0 would be written as an empty field, or as 'unknown' for the participant id.
- `Records.RowReadsBack` assumes the columns the source writes unescaped hold no comma, quote or line feed: participant id, session id and clock strings. A subject id with a comma would shift the columns of its rows.
