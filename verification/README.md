# Verified model of the edit engine, stream bridge, publish gate, build scheduler and daemon protocol

This project models the parts of the repository that carry real state or arithmetic, in Dafny, and proves what they
promise. `dafny verify dfyconfig.toml` checks all of it. Loops over mutable variables, closures over shared state and
server objects are methods and classes; each is proved against a function, and the promises are lemmas about that
function. Protocols are state machines over single steps, with theorems over every run.

**Line-anchored edits** (`hashline_edits`, `hashline_primitives`, `simultaneous_splice`, `hashline_splice`,
`hashline_ends`, `hashline_interference`, `hashline_rules`). A batch is deduplicated, sorted bottom-up, validated once
against content hashes, tested for overlap and then spliced edit by edit without further validation. The reference is
one simultaneous splice of the original file (`Render`), in which every edit is seated at its line, surrounded by what
edits without an anchor put at either end. `Independent` is the condition under which both agree; it can be checked
before the batch is applied. It is needed: the program's own overlap test looks only at replaces that have an end, and
two lemmas say what becomes of batches it accepts although their edits interfere. Anchor normalization and parsing,
the tag test and the wrapped-line and indentation heuristics are arbitrary functions (`Rules`), so the theorems hold
for every choice of them; `hashline_rules` puts the program's own parser, tag test and prefix stripping in their
place. `hashline_primitives` writes out what each kind of edit and each check before it does.

**Tagged lines** (`hashline_format`, `hashline_stream`, `hashline_refs`, `hashline_grammar`, `words`, `xxhash32`,
`xxhash_published`, `file_text`). Printing a file with numbers and tags, streaming it in bounded chunks, reading
pasted lines and references back, the 32-bit hash behind the tags, and the canonical file text. Words are numbers
below 2^32 with wrap-around written out; `|` of parts that share no bit is written as `+`. What counts as a tag and as
a reference is stated as a grammar, in both directions. The hash follows the "XXH32 algorithm description" of the
xxHash specification.

**The bridge** (`sse`, `sse_frames`, `fx_stream`, `fx_grammar`, `fx_delta_ids`, `fx_speech`, `fx_history`,
`fx_translator`, `antigravity_stream`, `antigravity_history`, `prompt_mapping`, `bridge_drain`). The event-stream
codec, two translators from provider events to one bracketed frame stream, the prompt flattener, and the drain and
idle-retirement state of the server. Decoded text, parsed JSON and random ids are inputs. The two history files read
the whole frame stream off the input by looking back, without the variables of the translators, and show that it is
what they send. The codec reads the format of sections 9.2.5 and 9.2.6 of the WHATWG HTML standard for LF and CR LF
line ends, and departs from section 9.2.6 in three places, where the model follows the code: an unterminated last
event is dispatched and not discarded, a line that is `data` without a colon is ignored, and all white space behind
`event:` is dropped and not just one space.

**The publish gate** (`byte_ranges`, `memory_gate`, `redaction`). Which records are published, and the redaction of a
chunk by range subtraction, merging and a cursor sweep, against a filter over single bytes.

**The build scheduler** (`build_graph`). Bounded-parallel execution of a dependency graph; which running step settles
next, and whether it fails, is arbitrary.

**Daemon ownership** (`daemon_ownership`, `daemon_directory`). Processes start, throw, crash and close in any
interleaving over one version directory with a lock, an owner file, a pid file, an endpoint file and a socket. A ping
may answer anything and a liveness test may take a dead process for a live one (a reused pid), never the reverse. A
class runs the start and the close as the program writes them and shows each to be a run of that protocol.

**Scanners** (`plan_checklist`, `plan_grammar`, `utf8_cut`, `utf8_encoding`). The fence-aware checklist scanners with
their line grammar, and the two UTF-8 cuts.

## What turned out false, and exactly when it holds

- Text and reasoning blocks of the Responses translator are bracketed exactly when no delta opens a block with an
  empty item id (`FxGrammar.BracketedIffNoBlankBlock`); an empty id counts as "no block open" in
  `fx-stream.ts:120-126`.
- A tool input stays open exactly when its table key is reused by a later call (`FxGrammar.OpenInputsAreOrphans`;
  `FxGrammar.ReusedKeyLeavesInputOpen` is such a stream).
- A text or reasoning delta carries the id of the open block exactly when no delta names another item while a block is
  open (`FxDeltaIds.DeltasCarryOpenIdIffNoStray`; `FxDeltaIds.SecondItemStrays` is such a stream).
- Reading an event stream in pieces gives the same events for every cut when it holds no CR CR LF, which is weaker
  than every CR being followed by LF. For the normalized text the condition is exact
  (`Sse.CutsAreHarmlessIffNoCrCrLf`); for the events it is sufficient, and `Sse.ChunksCanMatter` gives a text whose
  events change.
- A version directory without live processes can be taken over exactly when it is empty of owner file and socket, or
  its owner file's endpoint is what the socket path still holds (`DaemonOwnership.ServiceIffRecoverable`). So a crash
  between binding the socket and writing the owner file, or while a closing daemon or a clean-up has removed the
  socket and not yet the owner file, keeps every later daemon of that version out; so does a start that throws after
  binding and leaves socket or owner file without the other. `DaemonOwnership.CrashPoints` and
  `DaemonOwnership.FailedStarts` list the phases; `DaemonOwnership.CrashCanWedge`,
  `DaemonOwnership.CrashWhileClosingCanWedge` and `DaemonOwnership.FailedProbeCanWedge` are such runs.
- Restoring a canonicalized file gives it back exactly when it holds no CR or its line ends are all CR LF
  (`FileText.ComesBackIffUniform`).
- In an independent batch, skipping a second validation is harmless for every edit but one: an insert before a line
  that the batch itself replaces would pass it exactly when the first new row still carries the anchor's tag
  (`HashlineSplice.ValidatedOnceStaysValid`; `HashlineInterference.SecondCheckCanFail` is a batch where it does not).
- An accepted batch had every anchor checked that it kept, but not every anchor it was given: keys are texts joined by
  bars, and an edit dropped as a duplicate has anchors that match exactly when none of them is blank or holds a bar in
  canonical form (`HashlineSplice.AcceptedMeansValidated`; `HashlineInterference.BlankEndIsNeverRead` and
  `HashlineInterference.BarredEndIsNeverRead` give the batches where one does not).
- What the gate withheld is hidden exactly when no withheld record shares its id with a published one; records without
  an id share the empty one (`Redaction.HiddenIsWithheld`; `Redaction.SharedIdShowsWithheld` is a case where text is
  shown).
- Decoding diagnostics keeps the beginning of the stream exactly when its first character is not a byte order mark
  read whole (`Utf8Cut.DecodedKeepsLongestPrefix`; `Utf8Cut.MarkIsLost`).
- Inserts after one line give the same file in either order exactly when their rows commute under concatenation
  (`HashlineInterference.SameLineInsertsCommute`).

## Model

| member | source | states |
|---|---|---|
| HashlineSplice.BatchIsSimultaneous | packages/hashline-core/src/edit-operations.ts:28-99 | for independent edits that all carry a matching anchor, dedupe, sort and one-by-one splicing give one simultaneous splice of the original file, every replacement computed from original lines; the batch fails exactly when an insert has nothing to insert, and counts exactly the replaces that change nothing (`HashlineEnds.BatchWithEnds` adds duplicates and unanchored edits) |
| HashlineEnds.BatchWithEnds | packages/hashline-core/src/edit-operations.ts:28-99 | any batch, duplicates and unanchored edits included: when the anchored edits that survive deduplication are independent with matching anchors, the result is their simultaneous splice with the appended payloads below it in the order given and the prepended ones above it, the last one topmost; a file that is one empty line gives way to the first of them; errors, no-ops and duplicates are counted exactly |
| HashlineEnds.EndsSortLast | packages/hashline-core/src/edit-operations.ts:38-44 | the sorted batch is the sorted anchored edits, then the appends and then the prepends in the order they were given |
| HashlineEnds.RunAtOneEnd | packages/hashline-core/src/edit-operation-primitives.ts:105-125 | any number of appends (or prepends) at one end stacks their payloads there, replacing a file that is one empty line, and fails exactly when one brings no rows |
| HashlineSplice.OrderDoesNotMatter | packages/hashline-core/src/edit-operations.ts:37-98 | any permutation of an independent batch gives the same report, error included |
| HashlineSplice.ValidatedOnceStaysValid | packages/hashline-core/src/edit-operations.ts:50-92 | after any prefix of the sorted batch each edit still to come would pass the hash test on the current lines, so skipping validation is justified; an insert before a line the batch has replaced would pass exactly when the first new row still carries the anchor's tag |
| HashlineSplice.InsertBeforeReplaced | packages/hashline-core/src/edit-operations.ts:56-92 | an insert before a replaced line finds the first row of the replacement there, and a second check accepts it exactly when that row carries the anchor's tag |
| HashlineInterference.SecondCheckCanFail | packages/hashline-core/src/edit-operations.ts:56-92 | a batch that is accepted and applied although a second check of its last edit would fail |
| HashlineSplice.AcceptedMeansValidated | packages/hashline-core/src/edit-operations.ts:50-54 | every accepted batch, independent or not, had the anchors of all edits it kept checked against the original, with upright, pairwise disjoint ranges; the anchors of any edit given, dropped duplicates included, match the file exactly when none of them is blank or holds a bar in canonical form |
| HashlineSplice.RunIsRender | packages/hashline-core/src/edit-operations.ts:56-92 | the apply loop over edits in sorted order equals the rendered splice of the edits done so far |
| HashlineSplice.StepAddsEdit | packages/hashline-core/src/edit-operation-primitives.ts:19-103 | one splice primitive on the current lines is one more edit in the simultaneous splice |
| HashlineSplice.StillReadsOriginals | packages/hashline-core/src/edit-operation-primitives.ts:38-103 | up to and including the lines it names an edit finds the current file equal to the original, inserts before a line the batch has replaced excepted |
| HashlineSplice.IndependentKeysDiffer | packages/hashline-core/src/edit-deduplication.ts:14-43 | independent edits are never taken for duplicates |
| HashlineSplice.IndependentRangesApart | packages/hashline-core/src/edit-ordering.ts:31-56 | independent edits pass the overlap test |
| HashlineInterference.SameLineInsertsCommute | packages/hashline-core/src/edit-ordering.ts:31-39 | two inserts after one line of any file are accepted in either order, and give the same file exactly when their rows commute under concatenation |
| HashlineInterference.ReplaceInsideARange | packages/hashline-core/src/edit-ordering.ts:35 | a one-line replace inside a replaced range of any file is accepted and overwrites whatever the range left at that number, a row of the payload or a line from below; its anchor still holds there exactly when that line carries its tag |
| HashlineRules.AnchorTestIsValidation | packages/hashline-core/src/validation.ts:67-80 | with the program's own parser and tag test the batch's test of an anchor accepts exactly the references the single-reference validator accepts |
| HashlineRules.GuardRefusesNothing | packages/hashline-core/src/validation.ts:22-65 | no reference is empty or holds a bar in canonical form, so refusing such texts before parsing refuses nothing the parser takes |
| HashlineRules.CopiedAnchorsMatch | packages/hashline-core/src/validation.ts:162-181 | end to end: a batch whose anchors are lines of the printed text, with or without a marker in front, passes validation against the file |
| HashlineRules.PrintedPayloadIsItsText | packages/hashline-core/src/edit-text-normalization.ts:45-50 | printed rows copied back as a payload put in the lines they were printed from |
| HashlineEdits.OrderFacts | packages/hashline-core/src/edit-operations.ts:38-44 | the sorted batch has the same edits and no edit before one that sorts strictly ahead of it |
| HashlineEdits.DedupeEdits | packages/hashline-core/src/edit-deduplication.ts:27-43 | the loop keeps the first edit of every key and counts the rest |
| HashlineEdits.FirstOccurrencesKeepKeys | packages/hashline-core/src/edit-deduplication.ts:14-43 | every key survives exactly once and only edits of the list survive |
| HashlineEdits.KeyIsExact | packages/hashline-core/src/edit-deduplication.ts:14-25 | edits whose canonical anchors hold no bar have one key exactly when operation, anchors and rows agree |
| HashlineInterference.BlankEndIsNeverRead | packages/hashline-core/src/edit-deduplication.ts:9-18 | an accepted replace stays accepted with the same file when a copy with a blank end is added, which counts as a duplicate although the end matches no file |
| HashlineInterference.BarredEndIsNeverRead | packages/hashline-core/src/edit-deduplication.ts:14-18 | likewise for a replace whose end is a bar and the beginning of the accepted rows and whose own rows are what follows the next bar: one key, other anchors, other rows |
| HashlineRules.BarredEndOccurs | packages/hashline-core/src/validation.ts:22-40 | with the program's own rules the end `|q` and the rows `q|r` and `r` are such texts |
| HashlineEdits.DetectOverlappingRanges | packages/hashline-core/src/edit-ordering.ts:31-56 | the loop returns the first pair of sorted neighbours that meet, by position counted from one |
| HashlineEdits.OverlapTestIsExact | packages/hashline-core/src/edit-ordering.ts:40-55 | for upright ranges the neighbour comparison accepts exactly the pairwise disjoint batches |
| HashlineEdits.NoClashMeansApart | packages/hashline-core/src/edit-ordering.ts:43-54 | no clash is reported exactly when every neighbour ends before the next starts |
| HashlineEdits.ValidateLineRefs | packages/hashline-core/src/validation.ts:162-181 | the loop reports the first reference out of bounds, otherwise every mismatched line in order, otherwise nothing |
| HashlineEdits.NoErrorMeansValid | packages/hashline-core/src/validation.ts:162-181 | no error is reported exactly when every reference is in bounds and hash-compatible |
| HashlineEdits.CollectedRefs | packages/hashline-core/src/edit-ordering.ts:17-29 | the collected references are exactly those some edit names |
| HashlineEdits.ApplyInOrder | packages/hashline-core/src/edit-operations.ts:56-92 | the loop over mutable lines and the no-op counter computes the run, and stops at the first error |
| HashlineEdits.ApplyToLines | packages/hashline-core/src/edit-operations.ts:37-98 | the steps in their order compute the batch result on lines |
| HashlineEdits.ApplyHashlineEditsWithReport | packages/hashline-core/src/edit-operations.ts:28-99 | the result on text: split, batch, join; an empty batch leaves the text alone (what each edit does is written out in `HashlinePrimitives`) |
| HashlinePrimitives.InsertAfterLine | packages/hashline-core/src/edit-operation-primitives.ts:71-86 | an insert after line k puts all its rows below the line, without the first if it repeats the line; if nothing else is left it fails |
| HashlinePrimitives.InsertBeforeLine | packages/hashline-core/src/edit-operation-primitives.ts:88-103 | an insert before line k puts all its rows above the line, without the last of several if it repeats the line |
| HashlinePrimitives.ReplaceLine | packages/hashline-core/src/edit-operation-primitives.ts:19-36 | a replace of one line puts the corrected rows there, the first with the line's indentation, and no rows take the line away |
| HashlinePrimitives.ReplaceLines | packages/hashline-core/src/edit-operation-primitives.ts:38-69 | a range replace drops a first row that repeats the line above and a last row that repeats the line below, only from a payload longer than the range, and puts the corrected rest there, its first row with the indentation of the first replaced line |
| HashlinePrimitives.WhatFails | packages/hashline-core/src/edit-operation-primitives.ts:38-103 | an upside-down range, an insert without rows and an insert after a line that is not there fail, each with its error |
| HashlinePrimitives.AtTheEnds | packages/hashline-core/src/edit-operation-primitives.ts:105-125 | without an anchor all rows go below or above the file, in place of it if it is one empty line |
| HashlinePrimitives.BatchOfOne | packages/hashline-core/src/edit-operations.ts:28-99 | a batch of one edit with matching anchors does what its primitive does and counts one no-op exactly when the file is unchanged |
| HashlinePrimitives.LinesOfText | packages/hashline-core/src/edit-operations.ts:37-98 | a file's lines hold no line feed and join to the text; only the empty text has none |
| HashlinePrimitives.OneKey | packages/hashline-core/src/edit-deduplication.ts:5-25 | without bars in canonical anchors two edits have one key exactly when operation, canonical anchors and joined rows agree |
| HashlinePrimitives.FirstsAreKept | packages/hashline-core/src/edit-deduplication.ts:27-43 | the edits kept are exactly those at the first place of their key, in the order given |
| HashlinePrimitives.ClashIsReal | packages/hashline-core/src/edit-ordering.ts:31-56 | a reported clash names by position two range replaces that meet, the one that starts first in front |
| HashlinePrimitives.ErrorIsExact | packages/hashline-core/src/validation.ts:162-181 | the error is the first line number outside the file or else all line numbers with another tag, in order |
| HashlinePrimitives.AnchorsAreCollected | packages/hashline-core/src/edit-ordering.ts:17-29 | a reference is collected exactly when an edit writes it as start, end or anchor |
| HashlineStream.StreamHashLines | packages/hashline-core/src/hash-computation.ts:62-123 | for every cut of a text into decoded pieces the chunks joined again are the whole text formatted at once, each chunk keeps to both limits unless it is a single line, and no chunk could have taken the first line of the next |
| HashlineStream.ChunkFormatter.Push | packages/hashline-core/src/hashline-chunk-formatter.ts:24-46 | a push adds one line to the lines held, or starts a new chunk with it exactly when they are at the line limit or would pass the byte limit; it hands out chunks within the limits and never drops a line |
| HashlineStream.ChunkFormatter.Flush | packages/hashline-core/src/hashline-chunk-formatter.ts:16-22 | a flush hands out exactly the held lines and leaves none |
| HashlineStream.LineStreamer.ConsumeText | packages/hashline-core/src/hash-computation.ts:84-105 | after a piece of text exactly the complete lines of all text so far have been pushed, numbered consecutively, and the rest is pending |
| HashlineStream.LineStreamer.PushComplete | packages/hashline-core/src/hash-computation.ts:90-103 | the scan pushes every complete line of the pending text |
| HashlineStream.LineStreamer.Finish | packages/hashline-core/src/hash-computation.ts:113-122 | the end pushes the unfinished line, or the empty one after a final line end, and flushes |
| HashlineStream.SplitAppend | packages/hashline-core/src/hash-computation.ts:84-105 | more text only changes the last line |
| HashlineStream.JoinOfChunks | packages/hashline-core/src/hashline-chunk-formatter.ts:16-22 | joining the chunks is joining all their lines |
| HashlineStream.OneGrouping | packages/hashline-core/src/hashline-chunk-formatter.ts:24-46 | there is one way only to cut lines into chunks that keep to the limits and could not take the next line, so the same chunks come out however the text arrives |
| Utf8Encoding.LengthOfEncoded | packages/hashline-core/src/hashline-chunk-formatter.ts:27 | the byte length counted is that of the UTF-8 form of section 3 of RFC 3629 |
| HashlineRefs.PrintedLinesStay | packages/hashline-core/src/hash-computation.ts:23-32 | cutting a printed text at line ends gives the printed line of each line of the text, in order |
| HashlineRefs.PrintedTextReadsBack | packages/hashline-core/src/edit-text-normalization.ts:15-50 | splitting and stripping a printed text gives the lines of the original text, for every text |
| HashlineRefs.PrintedLinesValidate | packages/hashline-core/src/validation.ts:67-80 | every printed line of a file, with no marker, with four spaces or with `>>> ` in front, parses to its line and tag and passes validation |
| HashlineRefs.PrintedReferenceParses | packages/hashline-core/src/validation.ts:22-65 | a printed reference parses exactly, with any marker and with or without content behind the bar, whatever the content holds |
| HashlineRefs.StripLinePrefixes | packages/hashline-core/src/edit-text-normalization.ts:15-43 | the counting loop strips tags when at least half of the non-empty lines carry one, plus signs under the same rule otherwise, and nothing else |
| HashlineRefs.StripsWhatWasPrinted | packages/hashline-core/src/edit-text-normalization.ts:1-39 | the tag prefix of a printed line is exactly what was printed in front of its content |
| HashlineRefs.EntriesAreTags | packages/hashline-core/src/constants.ts:1-7 | dictionary entries are two tag letters and no two of the 256 are the same |
| HashlineRefs.DictionaryTagsAreShaped | packages/hashline-core/src/hash-computation.ts:7-13 | a tag looked up by any hash modulo 256 is a dictionary entry |
| HashlineGrammar.PrefixRule | packages/hashline-core/src/edit-text-normalization.ts:1-39 | a line made of spaces, optional arrows, a number, `#`, two tag letters and a bar, with spaces between, loses all of that and keeps its content |
| HashlineGrammar.PrefixParts | packages/hashline-core/src/edit-text-normalization.ts:1-39 | no other line is taken to have a tag, and such lines stay as they are |
| HashlineGrammar.StripRule | packages/hashline-core/src/edit-text-normalization.ts:15-43 | tags come off when at least one line and at least half of the lines that are not empty have one, otherwise single plus signs under the same condition, otherwise nothing |
| HashlineGrammar.LooseReferenceParses | packages/hashline-core/src/validation.ts:22-47 | a reference parses to its line and tag with spaces around every part, with `>>>`, `+` or `-` in front, and with content behind a bar |
| HashlineGrammar.ExtractsFirst | packages/hashline-core/src/validation.ts:13-37 | the reference extracted from other text is the first one in it, and none is extracted exactly when there is none |
| HashlineGrammar.ReferenceParts | packages/hashline-core/src/constants.ts:9 | a canonical reference is digits, `#` and two tag letters and nothing else |
| HashlineGrammar.ValidationRule | packages/hashline-core/src/validation.ts:67-80 | a parsed reference is out of bounds, mismatched, or good if the line's tag or legacy tag is the one given |
| HashlineGrammar.ErrorRule | packages/hashline-core/src/validation.ts:41-65 | a text parses exactly when its canonical form is number, `#` and tag, and the special error is for a name in place of the number |
| HashlineGrammar.TagIsOfHash | packages/hashline-core/src/constants.ts:1-7 | a tag is the letter of the high and the letter of the low half of the hash's lowest byte |
| XxHash32.XxHash32Js | packages/hashline-core/src/xxhash32.ts:31-81 | the loops compute the stripe-by-stripe definition for every byte sequence and seed, reading only in bounds |
| XxHash32.ConsumeStripes | packages/hashline-core/src/xxhash32.ts:36-57 | the stripe loop computes the four accumulators after every whole stripe and stops behind the last one |
| XxHash32.AvalancheIsBijective | packages/hashline-core/src/xxhash32.ts:74-80 | the final mix has a two-sided inverse on 32-bit words |
| XxHash32.TailIsInjective | packages/hashline-core/src/xxhash32.ts:62-72 | over the same remaining bytes two different hashes stay different |
| XxHash32.ChangedByteShows | packages/hashline-core/src/xxhash32.ts:62-72 | one changed byte in the tail changes the tail's result |
| XxHash32.SeedsAreToldApart | packages/hashline-core/src/xxhash32.ts:56-81 | for inputs under 16 bytes different seeds give different hashes |
| XxHash32.OneByteIsToldApart | packages/hashline-core/src/xxhash32.ts:31-81 | for inputs of any length changing any one byte changes the hash |
| XxHash32.OneAccumulatorDiffers | packages/hashline-core/src/xxhash32.ts:36-57 | of two inputs one byte apart exactly one accumulator differs, from the stripe of that byte on, and it is that of the byte's lane |
| XxHashPublished.StartIs | packages/hashline-core/src/xxhash32.ts:38-58 | the accumulators an input starts with, and the start of a short one |
| XxHashPublished.RoundIs | packages/hashline-core/src/xxhash32.ts:26-29 | a round in plain arithmetic modulo 2^32, with the primes and the rotation of the XXH32 description |
| XxHashPublished.ConvergedIs | packages/hashline-core/src/xxhash32.ts:54-56 | the four accumulators are turned by 1, 7, 12 and 18 bits and added |
| XxHashPublished.LaneStepIs | packages/hashline-core/src/xxhash32.ts:62-66 | a remaining lane in plain arithmetic |
| XxHashPublished.ByteStepIs | packages/hashline-core/src/xxhash32.ts:69-72 | a remaining byte in plain arithmetic |
| XxHashPublished.AvalancheIs | packages/hashline-core/src/xxhash32.ts:74-80 | the final mix in plain arithmetic and bitwise exclusive or |
| Words.RotateReadBack | packages/hashline-core/src/xxhash32.ts:12-14 | a rotated word determines the word |
| Words.XorShiftUndone | packages/hashline-core/src/xxhash32.ts:74-80 | a shift-and-xor by at least eleven bits is undone by xoring the shift and the double shift |
| Words.TimesUndone | packages/hashline-core/src/xxhash32.ts:26-29 | a wrapped multiplication is undone by the inverse factor |
| FileText.ComesBackIffUniform | packages/hashline-core/src/file-text-canonicalization.ts:31-44 | restoring the canonical form gives the file back exactly when it has no CR or only CR LF line ends, with or without byte order mark |
| FileText.CanonicalFormIsStable | packages/hashline-core/src/file-text-canonicalization.ts:31-44 | for every text canonicalize after restore after canonicalize is canonicalize, envelope included |
| FileText.DetectStep | packages/hashline-core/src/file-text-canonicalization.ts:7-13 | the first line end of the text decides the detected line ending |
| FileText.EveryEndBecomesLf | packages/hashline-core/src/file-text-canonicalization.ts:22-24 | a line with CR LF, CR or LF behind it becomes the line with LF behind it, and the rest likewise |
| FileText.RestoringPutsBack | packages/hashline-core/src/file-text-canonicalization.ts:26-44 | restoring puts CR LF for every LF if the file had it, and the mark in front if it had one, and changes nothing else |
| FileText.MarkComesOff | packages/hashline-core/src/file-text-canonicalization.ts:15-38 | one leading U+FEFF comes off and is remembered, and the line ending is that of what is left |
| DaemonOwnership.AtMostOneEstablished | packages/lsp-daemon/src/daemon-server.ts:36-99 | over every interleaving of starts, throws, crashes and closes, at most one process is between validating its predecessor and withdrawing its own owner file |
| DaemonOwnership.OwnersFilesAreSafe | packages/lsp-daemon/src/ownership.ts:88-101 | while a live daemon's owner file is in place no step of any other process changes the owner, socket, pid or endpoint file |
| DaemonOwnership.ServingIsAnnounced | packages/lsp-daemon/src/daemon-server.ts:73-99 | a serving daemon's socket and all three files are its own, and its check before withdrawing always finds its own record |
| DaemonOwnership.LiveLockIsSafe | packages/lsp-daemon/src/lock.ts:28-55 | only its holder touches the startup lock while the holder lives |
| DaemonOwnership.ServiceIffRecoverable | packages/lsp-daemon/src/ownership.ts:130-164 | from a directory without live processes some daemon can come to serve exactly when nothing is left behind or the owner file's endpoint is what the socket path still holds |
| DaemonOwnership.CrashPoints | packages/lsp-daemon/src/daemon-server.ts:73-99 | phase by phase, whether a crash of the one established process leaves a directory the next daemon can take over |
| DaemonOwnership.FailedStarts | packages/lsp-daemon/src/daemon-server.ts:73-84 | what a start that threw leaves behind when its process ends or crashes: before binding what was there, after binding a directory that can be taken over exactly when socket and owner file are both left or neither is |
| DaemonOwnership.CrashCanWedge | packages/lsp-daemon/src/daemon-server.ts:73-77 | a run from a fresh directory that crashes between binding and writing, after which no continuation ever serves |
| DaemonOwnership.CrashWhileClosingCanWedge | packages/lsp-daemon/src/daemon-server.ts:88-97 | a run that serves, closes its socket and crashes before removing the owner file, after which no continuation ever serves |
| DaemonOwnership.FailedProbeCanWedge | packages/lsp-daemon/src/daemon-server.ts:73-84 | a run whose self-probe fails and whose socket goes with its process, after which no continuation ever serves |
| DaemonOwnership.DesertedToLease | packages/lsp-daemon/src/ownership.ts:54-72 | a start in a recoverable deserted directory gets its lease and leaves the socket path free |
| DaemonOwnership.LeaseToService | packages/lsp-daemon/src/daemon-server.ts:73-86 | a lease with a free socket path and no failing call leads to serving |
| DaemonOwnership.RunStaysWedged | packages/lsp-daemon/src/ownership.ts:130-154 | in a directory that is not recoverable no run gets any process past its lease |
| DaemonOwnership.RunIsSound | packages/lsp-daemon/src/ownership.ts:54-164 | the protocol invariant holds after every run |
| DaemonOwnership.StepIsSound | packages/lsp-daemon/src/ownership.ts:54-164 | every single step of any process keeps the invariant |
| DaemonOwnership.OthersFit | packages/lsp-daemon/src/ownership.ts:94-164 | a step leaves every other process with what its phase relies on |
| DaemonOwnership.CleaningFits | packages/lsp-daemon/src/ownership.ts:156-164 | removing a dead owner's files disturbs no other process |
| DaemonOwnership.WithdrawingFits | packages/lsp-daemon/src/ownership.ts:94-101 | a closing daemon removing its files disturbs no other process |
| DaemonOwnership.WriteFits | packages/lsp-daemon/src/ownership.ts:88-92 | writing the metadata disturbs no other process |
| DaemonOwnership.SocketStepFits | packages/lsp-daemon/src/daemon-server.ts:144-157 | binding and closing the socket disturbs no other process |
| DaemonOwnership.LockStepFits | packages/lsp-daemon/src/lock.ts:28-55 | taking and releasing the lock disturbs no other process |
| DaemonDirectory.VersionDirectory.StartDaemon | packages/lsp-daemon/src/daemon-server.ts:36-86 | a start as the program writes it, run undisturbed, is a run of the protocol, serves exactly when lock, validation, socket path and self-probe allow it, and with nobody left alive serves exactly when the directory is recoverable; it never keeps the lock |
| DaemonDirectory.VersionDirectory.ValidateExistingOwner | packages/lsp-daemon/src/ownership.ts:130-154 | the two-attempt loop leases exactly when there is no record, or nobody answers, the pid is dead and the endpoint is unchanged |
| DaemonDirectory.VersionDirectory.RemoveIfDead | packages/lsp-daemon/src/ownership.ts:143-152 | after a silent ping the owner is cleaned away unless its pid lives or its record or endpoint changed |
| DaemonDirectory.VersionDirectory.CleanupDeadOwner | packages/lsp-daemon/src/ownership.ts:156-164 | the clean-up removes exactly socket, pid file, endpoint file and owner file, step by step as the protocol does |
| DaemonDirectory.VersionDirectory.WriteDaemonOwner | packages/lsp-daemon/src/ownership.ts:88-92 | pid file, endpoint file and owner file are written in this order and name the daemon |
| DaemonDirectory.VersionDirectory.ListenAndAnnounce | packages/lsp-daemon/src/daemon-server.ts:73-80 | binding, stat, writing and probing announce the daemon exactly when the socket path was free and the probe answers |
| DaemonDirectory.VersionDirectory.RemoveMetadataForOwner | packages/lsp-daemon/src/ownership.ts:94-101 | the files go only if the owner file is still the daemon's own |
| DaemonDirectory.VersionDirectory.CloseDaemon | packages/lsp-daemon/src/daemon-server.ts:88-99 | closing removes the socket and, if still its own, all files of the daemon |
| DaemonDirectory.VersionDirectory.TryAcquireLock | packages/lsp-daemon/src/lock.ts:28-55 | the two-attempt loop of creating the lock and reaping a stale one takes it when it is free or its holder is dead, and leaves it alone otherwise |
| BuildGraph.RunGraph | script/build.ts:86-122 | every run respects deps and the limit; completion means every node is done; the cycle error arises only for a graph that is not schedulable, with a pending set whose members wait on each other or on unknown ids; a failed step is reported by its id, once nothing is in flight any more |
| BuildGraph.StartsAfterItsDeps | script/build.ts:95-107 | in every legal run each start comes after all its deps finished, at most the limit are running, and a node starts at most once |
| BuildGraph.NothingStuckStarts | script/build.ts:95-107 | no member of a set whose members wait on the set or on unknown ids ever starts |
| BuildGraph.DoneMeansSchedulable | script/build.ts:95-112 | a run that finishes every node shows unique ids and a schedulable graph |
| BuildGraph.NothingCanStart | script/build.ts:107-109 | with nothing running and nothing ready the unfinished nodes are a stuck set and the graph is not schedulable |
| BuildGraph.RankedIsSchedulable | script/build.ts:56-73 | unique ids, known deps and a rank that drops along every dependency make a graph schedulable |
| BuildGraph.LegalIsSound | script/build.ts:86-112 | after every legal run what runs or is done was ready, and the slots in use keep to the limit |
| BuildGraph.StateRemembers | script/build.ts:87-107 | done, running and failed are exactly what was seen to finish, start and fail |
| BuildGraph.StartReady | script/build.ts:96-106 | the pass over pending ids starts ready nodes until the slots are full or nothing is ready |
| BuildGraph.Settle | script/build.ts:110 | waiting for the next settlement ends with a newly done node or a rejected one |
| BuildGraph.SettleAll | script/build.ts:119 | after a failure every step still running settles and none is started |
| BuildGraph.Distinct | script/build.ts:90 | the pending set holds each id once, and as many as nodes exactly when ids are unique |
| FxGrammar.EveryStreamIsFramed | harness/bridge/src/fx-stream.ts:95-323 | every event sequence gives one metadata frame, then ends in one finish and the end mark; every tool call follows its input end; a finish says "stop" only if no tool was called |
| FxGrammar.BracketedIffNoBlankBlock | harness/bridge/src/fx-stream.ts:119-140 | text (and reasoning) starts, deltas and ends alternate and are closed at the finish exactly when no delta opens a block with an empty item id |
| FxGrammar.EmptyItemIdLeavesTextOpen | harness/bridge/src/fx-stream.ts:227-234 | one text delta with an empty item id leaves its block open at the end |
| FxGrammar.OpenInputsAreOrphans | harness/bridge/src/fx-stream.ts:142-165 | the tool inputs still open at the end are exactly those whose table key was overwritten by a later call |
| FxGrammar.ReusedKeyLeavesInputOpen | harness/bridge/src/fx-stream.ts:209-222 | two calls under one item id leave the first one's input open at the end |
| FxDeltaIds.DeltasCarryOpenIdIffNoStray | harness/bridge/src/fx-stream.ts:227-243 | every text (and reasoning) delta carries the id of the block that is open exactly when no delta arrives naming another item while a block is open |
| FxDeltaIds.SecondItemStrays | harness/bridge/src/fx-stream.ts:227-234 | text deltas of two items in a row put the second item's id into the first one's block |
| FxDeltaIds.IdsSoFar | harness/bridge/src/fx-stream.ts:187-318 | after every event the ids carried so far and the id of the open block are what the events before it determine |
| FxGrammar.BlocksSoFar | harness/bridge/src/fx-stream.ts:187-318 | after every event the open blocks are those the translator's variables name, unless a blank item id opened one |
| FxSpeech.EverythingIsSaid | harness/bridge/src/fx-stream.ts:187-323 | the frames carry exactly the text, reasoning and calls of the events up to the first end, in order; a call has the arguments added up since it began or those of its done event, and a call never done is asked for at the end, in the order it came up |
| FxSpeech.FaithfulSoFar | harness/bridge/src/fx-stream.ts:187-318 | after every event the table holds the calls the events so far left under way, in the order they came up, and the frames say what the events said |
| FxSpeech.ClosingAsks | harness/bridge/src/fx-stream.ts:142-165 | closing the table asks for every call in it, in order |
| FxTranslator.TranslateStream | harness/bridge/src/fx-stream.ts:187-323 | the generator over mutable variables yields the frames of the translation, stopping at the first finishing event (`FxHistory` reads the same frames off the events) |
| FxTranslator.FinishedIsFinal | harness/bridge/src/fx-stream.ts:187-188 | nothing after the finish changes anything |
| FxTranslator.Translator.FinishStream | harness/bridge/src/fx-stream.ts:167-177 | the finish closes reasoning, text and tools in that order and settles the reason last |
| FxTranslator.Translator.CloseTools | harness/bridge/src/fx-stream.ts:142-165 | the loop ends and calls every open tool in insertion order and empties the table |
| FxTranslator.Translator.On | harness/bridge/src/fx-stream.ts:187-318 | one event moves the variables as the translation says |
| FxHistory.SendsWhatHistoryAsks | harness/bridge/src/fx-stream.ts:95-323 | the whole frame list, for every event sequence: it equals one read off the events by looking back, without the translator's variables |
| FxHistory.MetadataNamesTheModel | harness/bridge/src/fx-stream.ts:109-113 | the metadata frame carries the first model named by a created event before the end, or else by the event that ends the stream, or else `unknown` |
| FxHistory.FinishTellsTheEnd | harness/bridge/src/fx-stream.ts:167-323 | the first event that ends the stream fixes the error frame and the finish with both its reasons; a stream without one finishes as `other` |
| FxHistory.HistorySoFar | harness/bridge/src/fx-stream.ts:187-318 | after every event before the end the frames sent, the open blocks and the table are what the history asks |
| AntigravityStream.EveryStreamIsWellFormed | harness/bridge/src/antigravity.ts:500-598 | for every chunk sequence one metadata frame comes first, at most one block is open, deltas carry its id, tool frames come in threes with no block open, the stream ends in one finish and the end mark, and a finish that is no error says "tool-calls" exactly when a tool was called |
| AntigravityStream.EverythingIsSaid | harness/bridge/src/antigravity.ts:533-587 | the frames carry exactly the text, thoughts and calls of the chunks before the first end mark or error, in order |
| AntigravityStream.AntigravityToFxSse | harness/bridge/src/antigravity.ts:502-598 | the generator over mutable variables yields the frames of the translation (`AntigravityHistory` reads the same frames off the chunks) |
| AntigravityStream.Generator.TakePart | harness/bridge/src/antigravity.ts:560-583 | one part moves the variables as the translation says |
| AntigravityStream.Generator.TakeChunk | harness/bridge/src/antigravity.ts:533-587 | one chunk moves the variables as the translation says, and tells whether to stop |
| AntigravityStream.ChunksAreFaithful | harness/bridge/src/antigravity.ts:504-586 | after every chunk the reader is in the block the variables name |
| AntigravityHistory.SendsWhatChunksAsk | harness/bridge/src/antigravity.ts:500-598 | the whole frame list, for every chunk sequence, read off the chunks: the metadata frame carries the model; the finish carries the last reason named before the end, and says `tool-calls` if a call was made, else `length` for MAX_TOKENS, else `stop`; an error chunk's message and status reach the error frame and the finish |
| Sse.ChunksDoNotMatter | harness/bridge/src/sse.ts:33-65 | two cuts of the same text give the same events if it holds no CR CR LF |
| Sse.PairedCrsAreEnough | harness/bridge/src/sse.ts:46-47 | text in which every CR is followed by LF has no CR CR LF |
| Sse.CutsAreHarmlessIffNoCrCrLf | harness/bridge/src/sse.ts:46-47 | normalizing again with every read is the same at every cut exactly when the text has no CR CR LF |
| Sse.ChunksCanMatter | harness/bridge/src/sse.ts:46-47 | a text with CR CR LF whose events depend on where it is cut |
| Sse.StreamedIsLineByLine | harness/bridge/src/sse.ts:14-65 | however the stream is cut its events are those of a reader that goes line by line and dispatches at each empty line and at the end |
| Sse.DecodesWhatWasEncoded | harness/bridge/src/sse.ts:6-65 | any chunking of encoded frames decodes to exactly the encoded payloads in order |
| SseFrames.FramesComeBack | harness/bridge/src/sse.ts:14-65 | any chunking of full frames with LF or CR LF ends decodes to their events in order: the name of the last event line without the white space in front, the data rows joined by LF, one blank off each row; comments and unknown lines change nothing, a frame without data is no event, and an unterminated last frame counts |
| Sse.PiecesAreWhole | harness/bridge/src/sse.ts:43-56 | after every read the blocks found and the text kept are those of the whole text so far |
| Sse.BlankHasNoEvent | harness/bridge/src/sse.ts:57-60 | the blank test before the last parse never drops an event |
| Sse.IterateSse | harness/bridge/src/sse.ts:33-65 | the read loop yields the events of the pieces (`SseFrames.FramesComeBack` says which those are) |
| Sse.ParseSseBlock | harness/bridge/src/sse.ts:14-31 | the line loop computes the event of a block |
| Sse.TakeBlocks | harness/bridge/src/sse.ts:48-54 | the inner loop takes every complete block off the buffer and keeps the rest |
| Sse.IndexOfBreak | harness/bridge/src/sse.ts:49 | the first empty line, or none |
| Redaction.RenderGatedContent | harness/msearch/memory_episode_adapter.py:342-390 | in redacting lanes the content is the in-order bytes of the chunk not in the union of hidden spans minus the union of published ones; in quote and feel lanes the in-order bytes of the published spans with one newline between separated runs |
| Redaction.HiddenBytesLeaveNoTrace | harness/msearch/memory_episode_adapter.py:342-390 | two files that agree on every shown position publish the same content |
| Redaction.ShownIsPublishable | harness/msearch/memory_episode_adapter.py:342-390 | a position is shown exactly when a published record spans it or, in redacting lanes, no withheld record does or every withheld one that does goes by the id of a published one; without a shared id that last case does not arise |
| Redaction.HiddenIsWithheld | harness/msearch/memory_episode_adapter.py:354-359 | the hidden records are those the gate withheld exactly when no withheld record shares its id with a published one |
| Redaction.HiddenIsUnclaimed | harness/msearch/memory_episode_adapter.py:353-358 | whatever the ids, a record is hidden exactly when no published one goes by its id |
| Redaction.SharedIdShowsWithheld | harness/msearch/memory_episode_adapter.py:353-390 | two records without an id, one published and one withheld: what only the withheld one spans is shown |
| Redaction.Sweep | harness/msearch/memory_episode_adapter.py:379-385 | the cursor sweep equals a filter over single bytes |
| Redaction.JoinRuns | harness/msearch/memory_episode_adapter.py:365-369 | joining merged runs equals the bytes of the runs with one newline between any two |
| Redaction.ClampedCovers | harness/msearch/memory_episode_adapter.py:354-363 | clamped spans cover exactly the spanned positions inside the chunk |
| Redaction.AroundAGap | harness/msearch/memory_episode_adapter.py:365-390 | of two shown stretches with a gap between them quotes and feelings get one newline in between and other lanes nothing |
| ByteRanges.SubtractRanges | harness/msearch/memory_episode_adapter.py:294-313 | a byte is left exactly when some range has it and no protected range does, inverted ranges included |
| ByteRanges.CutOut | harness/msearch/memory_episode_adapter.py:303-311 | taking one protected range out of the pieces is exact |
| ByteRanges.MergeRanges | harness/msearch/memory_episode_adapter.py:316-325 | the merged ranges are sorted, non-empty, strictly separated and cover the same bytes, inverted ranges included |
| ByteRanges.CanonicalIsUnique | harness/msearch/memory_episode_adapter.py:316-325 | coverage determines the merged list |
| PublishGate.Gate | harness/msearch/memory_episode_adapter.py:155-188 | the published items are the passing ones in order, each withheld item counts under the first test it fails, and an unknown lane is refused (`PublishGate.PublicationRule` writes the tests out) |
| PublishGate.GateAddsUp | harness/msearch/memory_episode_adapter.py:165-188 | published items and the four counts add up to the candidates |
| PublishGate.PublishedIsSafe | harness/msearch/memory_episode_adapter.py:113-188 | a published item is current, approved if an appraisal, and allowed in its lane |
| PublishGate.PublicationRule | harness/msearch/memory_episode_adapter.py:113-188 | every reason written out: stale exactly if it has no source, no digest or another digest than its file; unapproved exactly if an unreviewed appraisal; in each lane the kinds, actor and path that keep it out; shown exactly otherwise |
| PublishGate.CountsAreExact | harness/msearch/memory_episode_adapter.py:165-188 | each count is the number of places in the list whose item has that reason |
| PublishGate.ContainsIsPart | harness/msearch/memory_episode_adapter.py:120-125 | a path is in a directory exactly when the directory's text is part of it |
| PublishGate.CheckSource | harness/msearch/memory_episode_adapter.py:133-152 | the digest cache never changes the freshness verdict |
| BridgeDrain.RunIsSound | harness/bridge/src/server.ts:407-481 | over every run the count is the number of admitted unfinished calls; a drain that settles over a waiting client did so at its deadline; a drain begun by idle retirement closes over no call |
| BridgeDrain.DrainIsFinal | harness/bridge/src/server.ts:143-186 | once draining, no run admits a call, resets the drain or settles it twice |
| BridgeDrain.StepIsSound | harness/bridge/src/server.ts:143-186 | every event keeps the invariant |
| BridgeDrain.DrainCanEnd | harness/bridge/src/server.ts:166-181 | a waiting drain settles at its deadline, at a poll exactly when no call is left, and when the server closes, which it can exactly when no client is left |
| BridgeDrain.Bridge.OnRequest | harness/bridge/src/server.ts:460-476 | a model request is counted, or refused while draining |
| BridgeDrain.Bridge.OnCallEnd | harness/bridge/src/server.ts:473-482 | the end of a call is counted and retirement considered |
| BridgeDrain.Bridge.OnRetireTimer | harness/bridge/src/server.ts:412-421 | the retire timer starts a drain only when idle and not draining |
| BridgeDrain.Bridge.FinishDrain | harness/bridge/src/server.ts:158-169 | only the first reason settles a drain |
| BridgeDrain.Bridge.DrainAndClose | harness/bridge/src/server.ts:143-157 | a second drain changes nothing |
| BridgeDrain.OnlyAnIdleStaleBridgeRetires | harness/bridge/src/server.ts:407-421 | retirement begins exactly at the end of the last call of a stale bridge that may retire and is not draining, and ends exactly when its timer finds calls or a drain |
| BridgeDrain.WhatDrains | harness/bridge/src/server.ts:143-186 | a drain begins exactly with an authorized request or a timer on an idle bridge, and settles exactly at its deadline, at a poll without calls or when the server closes, with that reason |
| BridgeDrain.WhatCounts | harness/bridge/src/server.ts:460-482 | what every event does to the count, the calls and their clients |
| PlanChecklist.FencedBlockChangesNothing | packages/boulder-state/src/plan-checklist.ts:50-195 | inserting a closed fenced block anywhere outside a fence changes neither the checklist, the structured or simple choice, nor the next task |
| PlanChecklist.OpenFenceHidesTheRest | packages/boulder-state/src/plan-checklist.ts:79-91 | an opening fence that nothing closes hides the rest of the plan |
| PlanChecklist.SummaryAddsUp | packages/boulder-state/src/plan-checklist.ts:115-162 | completed and remaining add up to total, and the next label is absent exactly when nothing remains |
| PlanChecklist.NextIsFirstUnchecked | packages/boulder-state/src/plan-checklist.ts:104-112 | the next label and task are those of the first unchecked box |
| PlanChecklist.CheckboxesNameTasks | packages/boulder-state/src/plan-checklist.ts:207-239 | a structured checkbox always yields a task whose number and title make up its label |
| PlanChecklist.ParseStructuredPlan | packages/boulder-state/src/plan-checklist.ts:68-124 | the scanner equals the summary of the boxes on visible lines, with the next task |
| PlanChecklist.ParseSimpleChecklist | packages/boulder-state/src/plan-checklist.ts:126-163 | the scanner equals the summary of the simple boxes on visible lines |
| PlanChecklist.HasStructuredSection | packages/boulder-state/src/plan-checklist.ts:175-195 | a section heading is found exactly when one is visible |
| PlanChecklist.ParsePlan | packages/boulder-state/src/plan-checklist.ts:50-66 | the checklist and next task of a plan, structured when a section heading is visible |
| PlanGrammar.FenceRule | packages/boulder-state/src/plan-checklist.ts:241-262 | a fence opens with at most three blanks and three or more backticks or tildes, without a backtick behind backticks, and closes with as many or more of the same and only blanks behind |
| PlanGrammar.BlankIsNoFence | packages/boulder-state/src/plan-checklist.ts:241-262 | a blank line is no fence, and every other line is one the fence rule speaks of |
| PlanGrammar.BoundaryRule | packages/boulder-state/src/plan-checklist.ts:9 | one or two `#` with a blank or nothing behind are a section boundary, and nothing else is |
| PlanGrammar.HeadingRule | packages/boulder-state/src/plan-checklist.ts:6-8 | the two section headings, in letters of either case, with blanks and a closing run of `#`, and nothing else |
| PlanGrammar.StructuredRule | packages/boulder-state/src/plan-checklist.ts:11-12 | a numbered checkbox is checked with x or X and open with a blank between its brackets, and has a task label behind them |
| PlanGrammar.TaskRule | packages/boulder-state/src/plan-checklist.ts:221-239 | a label is number, dot, blank and title; its task is filed under section and lower-case number |
| PlanGrammar.LabelParts | packages/boulder-state/src/plan-checklist.ts:221-239 | every label is made this way, its number without a leading zero and with an F in the final wave |
| PlanGrammar.SimpleRule | packages/boulder-state/src/plan-checklist.ts:5 | a simple checkbox is checked exactly when its brackets hold a mark, and its label is what follows the blanks behind them |
| PlanGrammar.SimpleParts | packages/boulder-state/src/plan-checklist.ts:5 | every simple checkbox is made this way |
| PlanGrammar.SectionsHoldBoxes | packages/boulder-state/src/plan-checklist.ts:93-112 | a heading opens its section up to the next heading, and the boxes counted are those of its lines |
| PlanGrammar.NothingBeforeHeadings | packages/boulder-state/src/plan-checklist.ts:93-99 | in front of all headings nothing counts |
| PlanGrammar.SimpleBoxesInOrder | packages/boulder-state/src/plan-checklist.ts:126-163 | without sections every visible line is tried, in order |
| PlanGrammar.OutsideIsVisible | packages/boulder-state/src/plan-checklist.ts:79-91 | lines none of which opens a fence are all visible |
| PlanGrammar.SectionsCountIfThere | packages/boulder-state/src/plan-checklist.ts:50-66 | the structured reading is chosen exactly when one of the two headings is visible |
| PlanGrammar.SummaryCounts | packages/boulder-state/src/plan-checklist.ts:100-123 | completed, remaining and total are the numbers of checked boxes, open boxes and boxes |
| PlanGrammar.LinesComeBack | packages/boulder-state/src/plan-checklist.ts:51 | lines come back from a text that separates them with LF or with CR LF |
| PromptMapping.OrderIsKept | harness/bridge/src/fx-request.ts:104-193 | the items say what the prompt says in the same order, letter by letter for assistant text, so no text crosses a call and nothing is added or lost |
| PromptMapping.TextsAreMerged | harness/bridge/src/fx-request.ts:129-164 | within one assistant message no item is empty text and no two text items are adjacent |
| PromptMapping.InstructionsInOrder | harness/bridge/src/fx-request.ts:104-193 | the instructions are the texts of the system messages that have one, in the order of the prompt |
| PromptMapping.MapPrompt | harness/bridge/src/fx-request.ts:104-193 | the loop pushes each message's items in order and joins the system texts |
| PromptMapping.MapAssistant | harness/bridge/src/fx-request.ts:129-175 | the part loop flushes held texts before each call and at the end |
| Utf8Cut.StreamKeepsLongestPrefix | packages/ast-grep-mcp/src/sg-runner.ts:69-75 | of a stream of whole characters cut at any byte exactly the longest prefix of whole characters is handed to the decoder |
| Utf8Cut.DecodedKeepsLongestPrefix | packages/ast-grep-mcp/src/sg-runner.ts:69-76 | the whole decoding: of a stream of whole characters cut at any byte the longest run of whole characters within both the cut and the byte limit is kept, from the first character on, or from the second if the first is a byte order mark that was read whole; the limit is measured without the mark |
| Utf8Cut.DecodeStderr | packages/ast-grep-mcp/src/sg-runner.ts:69-76 | the two loops, with the decoder's drop of a leading mark between them, compute that text |
| Utf8Cut.MarkIsLost | packages/ast-grep-mcp/src/sg-runner.ts:75 | of EF BB BF 41 only the last byte is left, although everything fits |
| Utf8Cut.TruncationKeepsLongestPrefix | packages/ast-grep-mcp/src/sg-runner.ts:61-67 | truncation keeps the longest prefix of whole characters within the byte limit |
| Utf8Cut.TruncateUtf8 | packages/ast-grep-mcp/src/sg-runner.ts:61-67 | the downward loop stops at the boundary at or below the limit |
| Utf8Cut.CompletePart | packages/ast-grep-mcp/src/sg-runner.ts:69-75 | the downward loop finds the last lead byte within four bytes of the end and drops an unfinished character |
| Utf8Encoding.EncodedIsChar | packages/ast-grep-mcp/src/sg-runner.ts:61-75 | the UTF-8 form of every character has the lead byte, the continuation bytes and the length the two cuts look for |

## Left out

- HashlineEdits.ValidateLineRefs: a malformed anchor is refused as one that names no line; that the program raises a parse error for it, possibly while sorting, and the wording of messages, hints and remaps are not modelled.
- HashlineEdits.OrderFacts: an end that is the empty text counts as no end; `edit-ordering.ts:7` reads it as an anchor when it sorts two edits or more, and raises a parse error.
- HashlineEdits.ApplyHashlineEditsWithReport: takes the wrapped-line correction, indent restoration and whitespace comparison as arbitrary functions of the original span and the payload.
- DaemonOwnership.AtMostOneEstablished: takes lock acquisition (create, write, reap a stale lock) and each metadata write as one step, although `lock.ts:38-55` and the file writes are several file operations.
- DaemonOwnership.ServiceIffRecoverable: models the Unix socket case; Windows named pipes, file permissions, the auth token and the idle timer are not modelled.
- DaemonDirectory.VersionDirectory.StartDaemon: runs start to end without interference and without thrown file errors; interleavings, throws and crashes are steps of the protocol in `DaemonOwnership`, which is modelled on values.
- DaemonDirectory.VersionDirectory.TryAcquireLock: the loop runs undisturbed and counts as one step of the protocol; other processes between its file operations are not modelled.
- The reaping of other versions' directories (`version-reap.ts`) acts across version directories and is not part of this model.
- BuildGraph.RunGraph: leaves out the kill signal sent to the steps still running after a failure; that they all settle before the failure is reported is modelled. Spawning and output capture are input and output.
- FxGrammar.EveryStreamIsFramed: frames carry ids, names, texts and finish reasons; usage numbers, timestamps, provider metadata and the JSON reading of tool arguments are left out.
- AntigravityStream.EveryStreamIsWellFormed: starts after a successful response; a refused request yields only an error, a finish and the end mark. Request building, sessions, usage and authentication are not modelled.
- Sse.ChunksDoNotMatter: is one-way; some texts with CR CR LF give the same events at every cut, because a run of CRs inside a line can be trimmed away by the block parser.
- Sse.IterateSse: starts from decoded text; the byte decoder and the abort signal are not modelled.
- Redaction.RenderGatedContent: stops before decoding, trimming and the archive row layout; locating the chunk in its file is an input.
- PublishGate.Gate: takes file digests and review approvals as functions.
- BridgeDrain.RunIsSound: takes staleness of the source, timers and socket callbacks as events; request routing, authentication and the exit of the process are not modelled.
- HashlineStream.StreamHashLines: takes the limits and the tag function as parameters (the program's defaults are 200 lines and 64 KiB); `streamHashLinesFromLines`, which shares the chunker, is not modelled separately.
- HashlineRefs.PrintedLinesValidate: takes numbers as unbounded, not as doubles, and the hash behind the tag as arbitrary; the choice of seed by letter or digit content is not modelled.
- HashlineGrammar.LooseReferenceParses: is one-way; the program also takes the first reference it finds in any other text (`HashlineGrammar.ExtractsFirst`).
- XxHash32.SeedsAreToldApart: speaks of inputs under 16 bytes only; longer inputs fold four accumulators into one word, so two seeds may meet there.
- PlanChecklist.ParsePlan: starts from the text of the plan; reading the file and its errors are left out.
- Utf8Cut.DecodedKeepsLongestPrefix: speaks of streams of whole characters up to the cut; the decoder's replacement of ill-formed input is not modelled.
- PromptMapping.MapPrompt: takes stringified tool inputs and outputs and flattened text content as given.
- Search ranking, model selection, provider catalogs, keychain reads and release scripts have no property of this kind.
