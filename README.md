# Elfas tutoring app: voice playback, transcripts and list rules

A Dafny model of the self-contained logic in `App.tsx`, the top-level controller of the Elfas
English-tutoring app. Six modules:

- **Types** (`Types.dfy`): the records of `types.ts` as datatypes, plus an `Option`.
- **Playback** (`Playback.dfy`): the playback scheduler of the realtime voice session. It keeps
  a cursor (`nextStartTimeRef`) and a set of live sources (`sourcesRef`). The class `Scheduler`
  holds those refs and updates them in place. Each method is proved against a step function on
  the value `PlaybackState`. Start times are described by `Starts` and `CursorAfter`, functions
  of the chunks in scheduling order. The lemmas about them prove the scheduling rule, that
  intervals do not overlap, and that start times follow scheduling order. Time is a
  non-negative `real` in seconds.
- **Transcript** (`Transcript.dfy`): the two partial-transcript buffers and the message log,
  which grows at its end and is replaced outright on navigation and topic choice. `Conversation` is the in-place class. `TranscriptState` and its step functions
  are the value model. `Finalized` is an independent statement of what a turn boundary commits.
- **Voice** (`Voice.dfy`): the `onmessage` handler as one step over both parts, in the order the
  handler runs them: audio, user transcript, assistant transcript, turn complete, interruption.
  A throw in the audio branch ends the handler early. It also holds the microphone toggle,
  `stopVoiceSession`, the open/close callbacks, navigation and topic choice.
- **TopicFilter** (`TopicFilter.dfy`): `filteredTopics`, a pure function. It applies the level
  filter, then the case-insensitive search, which is skipped when the query trims to nothing.
  It then sorts by `DIFFICULTY_ORDER` rank and title. It is proved sorted, and proved to hold
  exactly the selected input topics, each as often as the input does.
- **Bookkeeping** (`Bookkeeping.dfy`): vocabulary removal by id, the level-history prepend and
  the displayed current level, the correction gate, and the rule for when a message is analysed.

Inputs the app gets from outside are parameters: the audio clock reading, decoded buffer
durations, and message ids and timestamps (`Math.random`, `Date.now`).

Some behaviours of the code are easy to misread; the model follows the code:

- The cursor is not always ahead of the audio clock. `stopAllAudio` (App.tsx:131) resets it to
  0, and it stays there until the next message that carries audio data (`Playback.StopAllFacts`). It is at
  least the clock reading only right after scheduling (`Playback.ScheduleFacts`), and the first
  chunk after a stop starts at once (`Playback.ResumesAtOnceAfterStop`).
- A session that closes or fails only clears `isVoiceActive` (App.tsx:274-275). It neither
  releases the microphone nor flushes playback (`Voice.VoiceController.OnClose`).
- Playback is flushed when the button starts a session, before connecting (App.tsx:227), not
  when the session opens (`Voice.VoiceController.Toggle`).
- Navigating and choosing a topic replace the message log (App.tsx:301-305, 381, 432) without
  stopping the voice session. The transcript buffers survive and are committed into the new
  log at the next turn boundary (`Transcript.BuffersSurviveReplace`).
- A throw in the audio branch ends the handler. `modelTurn.parts[0]` throws when a model turn
  has no `parts` (App.tsx:253), and a rejected decode throws at App.tsx:257 after line 256 has
  already moved the cursor. The message's transcripts, turn boundary and interruption flag are
  then never handled (`Voice.AbortedMessageSkipsTranscripts`, `Voice.InterruptionSilences`).

## Model

| member | source | states |
|---|---|---|
| `Playback.StartRule` | App.tsx:256-263 | a chunk never starts before the clock reading at its arrival; it starts exactly when the previous chunk ends if it arrives before then (no gap), and at its arrival otherwise (no catching up) |
| `Playback.StartAt` | App.tsx:256-263 | chunk k starts at the later of the cursor left by chunks 0..k-1 and its arrival time |
| `Playback.NoOverlap` | App.tsx:256-264 | each chunk starts no earlier than the previous chunk's start plus its duration |
| `Playback.StartsInOrder` | App.tsx:256-264 | start times never decrease in scheduling order |
| `Playback.StartsPrefix` | App.tsx:256-264 | scheduling more chunks never changes the start times already given |
| `Playback.CursorIsLastEnd` | App.tsx:264 | the cursor is the end of the last scheduled chunk's interval |
| `Playback.InitialValid` | App.tsx:76-77 | the initial refs (cursor 0, empty set) satisfy the scheduler invariant |
| `Playback.ScheduleFacts` | App.tsx:256-264 | scheduling keeps the invariant; the chunk starts at max(cursor, now); the new cursor is that start plus the duration, so at least now; exactly one source is added, and it was neither live nor stopped before; its start is appended to the schedule |
| `Playback.EndedFacts` | App.tsx:261 | a source's end removes only that source; cursor, schedule and stopped set are unchanged; ending a source that is not live changes nothing |
| `Playback.StopAllFacts` | App.tsx:126-132 | from any state, no source is live, the cursor is 0, every previously live source has been stopped, a second stop changes nothing, and the invariant is kept |
| `Playback.ResumesAtOnceAfterStop` | App.tsx:131 | after a stop, the next chunk starts at its own arrival whatever backlog the old cursor held, the cursor is that arrival plus its duration, and it is the only live source |
| `Playback.AdvanceFacts` | App.tsx:256-257 | a failed decode moves the cursor to max(cursor, now), at least the clock, and adds, stops and removes no source; the schedule gains an empty interval there; the invariant is kept |
| `Playback.Schedule` | App.tsx:256-264 | the audio branch as a step on the state; specified by `Playback.ScheduleFacts` and the schedule lemmas above |
| `Playback.Advance` | App.tsx:256-257 | the audio branch cut short by a rejected decode; specified by `Playback.AdvanceFacts` |
| `Playback.Ended` | App.tsx:261 | the `onended` callback as a step; specified by `Playback.EndedFacts` |
| `Playback.StopAll` | App.tsx:126-132 | `stopAllAudio` as a step; specified by `Playback.StopAllFacts` |
| `Playback.Scheduler.constructor` | App.tsx:76-77 | the refs start with cursor 0 and no source |
| `Playback.Scheduler.ScheduleChunk` | App.tsx:254-264 | the audio branch: returns a fresh source id and the start max(cursor, now); moves the cursor to start plus duration; the new state is `Schedule` of the old one |
| `Playback.Scheduler.AdvanceTo` | App.tsx:256-257 | line 256 when the decode after it fails: the cursor becomes max(cursor, now), the sources stay; the new state is `Advance` of the old one |
| `Playback.Scheduler.OnEnded` | App.tsx:261 | the `onended` callback: the new state is `Ended` of the old one |
| `Playback.Scheduler.StopAllAudio` | App.tsx:126-132 | stops each live source in a loop, then empties the set and resets the cursor; the new state is `StopAll` of the old one |
| `Transcript.AsWrittenAbsentTextAppendsUndefined` | App.tsx:266-267 | as written, an event without text appends "undefined" to the buffer |
| `Transcript.Extend` | App.tsx:266-267 | the corrected buffer update: an event without text leaves the buffer as it was |
| `Transcript.ExtendAgreesWhenTextPresent` | App.tsx:266-267 | when the event has text, the corrected update equals the code's, and the buffer becomes the old buffer followed by the text, unchanged |
| `Transcript.PartialFacts` | App.tsx:266-267 | a partial transcript appends its text to its own role's buffer; the other buffer and the log are untouched |
| `Transcript.TurnCompleteFacts` | App.tsx:268-270 | both buffers end empty; earlier log entries are kept; the appended entries are exactly `Finalized(user, assistant)`: one per non-empty buffer, user first, each non-empty; an empty buffer appends nothing |
| `Transcript.HelloExample` | App.tsx:266-270 | user "Hel", user "lo", assistant "Hi", then turn complete appends exactly user "Hello" and assistant "Hi", and empties both buffers |
| `Transcript.AddMessage` | App.tsx:134-136 | `addMessage` on the log value; specified by `Transcript.TurnCompleteFacts`, through which it is used |
| `Transcript.Partial` | App.tsx:266-267 | a partial transcript as a step; specified by `Transcript.PartialFacts` |
| `Transcript.TurnComplete` | App.tsx:268-270 | the turn boundary as a step; specified by `Transcript.TurnCompleteFacts` against `Finalized` |
| `Transcript.ReplaceLog` | App.tsx:301-305 | the log replacement as a step; specified by `Transcript.BuffersSurviveReplace` |
| `Transcript.NavigationLog` | App.tsx:300-305 | the log `navigateTo` installs: empty exactly for the topic browser; otherwise one assistant message with id "1", the given timestamp, and the free-chat or level-test greeting |
| `Transcript.BuffersSurviveReplace` | App.tsx:295-308 | replacing the log keeps the buffers: the next turn boundary keeps the new log as its prefix and appends exactly `Finalized` of the buffers spoken before the replacement |
| `Transcript.EmptyTurnCommitsNothing` | App.tsx:268-270 | a turn boundary with both buffers empty leaves the state unchanged |
| `Transcript.InitialLog` | App.tsx:35-37 | the starting log is one assistant message with id "1", the Elfas greeting text and the given timestamp |
| `Transcript.Conversation.constructor` | App.tsx:35-37 | the log starts as `InitialLog` of the given time and both buffers are empty |
| `Transcript.Conversation.AddMessage` | App.tsx:134-136 | appends one message with the given role, text, id and timestamp at the log's end; the buffers are untouched |
| `Transcript.Conversation.ReplaceMessages` | App.tsx:301-305 | `setMessages` with a new log: the log is replaced outright and the buffers are kept; the new state is `ReplaceLog` of the old one |
| `Transcript.Conversation.AppendPartial` | App.tsx:266-267 | the new state is `Partial` of the old one |
| `Transcript.Conversation.CompleteTurn` | App.tsx:268-270 | commits the user buffer, then the assistant buffer, then empties both; the new state is `TurnComplete` of the old one |
| `Voice.PlaybackStep` | App.tsx:253-272 | the handler's playback effects, cut short when the audio branch throws; specified by `Voice.InterruptionSilences` and `Voice.AudioMessageSchedules` |
| `Voice.TranscriptStep` | App.tsx:253-271 | the handler's transcript effects in source order, none when the audio branch throws; specified by `Voice.TurnCompleteEmptiesBuffers` and `Voice.AbortedMessageSkipsTranscripts` |
| `Voice.InterruptionSilences` | App.tsx:253-272 | after an interrupted message, no source is live and the cursor is 0, even if the same message carried audio; every previously live source and the newly started one have been stopped; when the audio branch throws, the flag is never read and the live sources are unchanged |
| `Voice.AudioMessageSchedules` | App.tsx:253-265 | without interruption: decoded audio adds exactly one fresh source and leaves the cursor at max(cursor, now) plus the duration; a failed decode moves the cursor to max(cursor, now) and adds no source; no audio, or a model turn without `parts`, leaves playback unchanged |
| `Voice.AbortedMessageSkipsTranscripts` | App.tsx:253-257 | when the audio branch throws, the message's transcripts and turn boundary change nothing |
| `Voice.TurnCompleteEmptiesBuffers` | App.tsx:266-271 | after a turn-complete message whose audio branch did not throw, both buffers are empty and earlier log entries are kept; a message with no transcript and no turn boundary leaves the transcript state unchanged |
| `Voice.VoiceController.constructor` | App.tsx:35-45 | playback at its initial state, `InitialLog` of the given time, and voice inactive |
| `Voice.VoiceController.OnMessage` | App.tsx:252-273 | the playback state and the transcript state become `PlaybackStep` and `TranscriptStep` of their old values; a throw in the audio branch returns at once |
| `Voice.VoiceController.Navigate` | App.tsx:295-309 | playback becomes `StopAll` of its old state, the log is replaced by `NavigationLog` of the view, the buffers are kept, and the session flag is unchanged |
| `Voice.VoiceController.SelectTopic` | App.tsx:432 | the log is replaced by the topic's opening message from the assistant; the buffers are kept |
| `Voice.VoiceController.BackToTopics` | App.tsx:381 | the log is emptied; the buffers are kept |
| `Voice.VoiceController.Toggle` | App.tsx:224-227 | if active, the session is stopped; otherwise playback is flushed before connecting; voice is inactive afterwards and playback is `StopAll` of its old state |
| `Voice.VoiceController.StopVoiceSession` | App.tsx:288-293 | from any state: inactive, and playback flushed |
| `Voice.VoiceController.OnOpen` | App.tsx:238-239 | voice becomes active |
| `Voice.VoiceController.OnClose` | App.tsx:274-275 | voice becomes inactive and playback is left as it was |
| `TopicFilter.Rank` | App.tsx:11-13 | ranks lie between 1 and 5 |
| `TopicFilter.RankOrdersLevels` | App.tsx:11-13 | the ranks increase from A1 to C1, and no two levels share a rank |
| `TopicFilter.Lower` | App.tsx:61-64 | lowering keeps the length and lowers each character in place |
| `TopicFilter.TrimEmptyIffBlank` | App.tsx:60 | `query.trim()` is empty exactly when every character of the query is white space or a line terminator |
| `TopicFilter.Trim` | App.tsx:60 | `trim()`; specified by `TopicFilter.TrimEmptyIffBlank` |
| `TopicFilter.Includes` | App.tsx:63-64 | `includes`; specified by `TopicFilter.IncludesIff` |
| `TopicFilter.IncludesIff` | App.tsx:63-64 | `includes` holds exactly when the query occurs as a contiguous piece of the text at some position |
| `TopicFilter.Selected` | App.tsx:56-64 | the two filter tests together; `TopicFilter.Kept` and `TopicFilter.FilteredTopics` are stated against it |
| `TopicFilter.Filter` | App.tsx:57 | `filter` keeps each element that passes the test as often as it occurs, and drops the rest; order is `TopicFilter.FilterConcat` |
| `TopicFilter.FilterConcat` | App.tsx:62-65 | filtering distributes over concatenation, so the kept elements stay in input order |
| `TopicFilter.FilterSingle` | App.tsx:57 | a single element is kept exactly when it passes the test |
| `TopicFilter.CompareStrings` | App.tsx:70 | the title comparison returns -1, 0 or 1, and 0 exactly for equal titles |
| `TopicFilter.CompareTopics` | App.tsx:69-70 | the sort callback: rank difference, else title comparison; specified by `TopicFilter.ComparatorIsTotalPreorder` |
| `TopicFilter.ComparatorIsTotalPreorder` | App.tsx:68-71 | the sort callback is total and transitive |
| `TopicFilter.Insert` | App.tsx:68-71 | inserting into a sorted list gives a sorted list with one more copy of the element |
| `TopicFilter.SortTopics` | App.tsx:68-71 | the sort's result is sorted by rank, then title, and is a permutation of its input |
| `TopicFilter.Kept` | App.tsx:54-66 | after the two filter stages, each topic appears as often as in the input if it has the chosen level (any level for 'ALL') and the query is blank or found in its lowered title or description; otherwise it does not appear |
| `TopicFilter.FilteredTopics` | App.tsx:53-72 | the list is sorted by rank and then title; it is a permutation of exactly the selected input topics; a topic is in it exactly when it is in the input and selected |
| `TopicFilter.CatalogueUnfiltered` | App.tsx:53-72 | three catalogue entries with no filter come out as the two A1 topics in title order, then the B1 topic |
| `TopicFilter.CatalogueByLevel` | App.tsx:53-72 | the same entries, filtered to B1 with a blank query, give only the B1 topic |
| `Bookkeeping.RemoveById` | App.tsx:529 | an item is in the result exactly when it is in the list and its id differs from the given one |
| `Bookkeeping.RemoveByIdConcat` | App.tsx:529 | removal applies piece by piece to a concatenation and keeps the pieces in order |
| `Bookkeeping.RemoveByIdSingle` | App.tsx:529 | a single item is dropped exactly when its id is the given one |
| `Bookkeeping.RemoveByIdAbsent` | App.tsx:529 | with no item carrying the id, the list is returned unchanged |
| `Bookkeeping.RemoveByIdIdempotent` | App.tsx:529 | removing the same id twice is the same as removing it once |
| `Bookkeeping.RemoveByIdLength` | App.tsx:529 | the list shrinks by exactly the number of items carrying the id |
| `Bookkeeping.PrependResult` | App.tsx:215 | the new result comes first and the old history follows unchanged |
| `Bookkeeping.CurrentLevel` | App.tsx:317 | the badge is never empty; it shows the newest entry's level when that level is non-empty, and 'Unranked' otherwise |
| `Bookkeeping.CurrentLevelAfterPrepend` | App.tsx:215 | after a prepend, the badge shows the new result's level, or 'Unranked' when that level is empty, whatever the older history holds |
| `Bookkeeping.ShownCorrection` | App.tsx:142-146 | a correction is shown exactly when the analysis returned one whose corrected text differs from the original; a shown correction is the analysis itself |
| `Bookkeeping.ShouldAnalyze` | App.tsx:137 | a message is analysed exactly when the user wrote it and the view is not the level test |

## Findings

| source | as written | input that shows it | evidently intended | confidence | as-written member | corrected member |
|---|---|---|---|---|---|---|
| App.tsx:266-267 | `prev + message.serverContent?.inputTranscription?.text`, and the same for the output transcription, concatenates an optional field | a server message whose `inputTranscription` (or `outputTranscription`) is present but has no `text` | the buffer stays as it was when no text is delivered | low: depends on whether the service ever sends a transcription without text; not executed | `Transcript.AsWrittenExtend`, shown by `Transcript.AsWrittenAbsentTextAppendsUndefined` | `Transcript.Extend`, with `Transcript.ExtendAgreesWhenTextPresent`; `Transcript.Partial` and the rest of the model use it |

## Left out

- services/geminiService.ts: the two remote SDK calls and their `JSON.parse`. Only their results appear, as the `Option<Correction>` fed to `Bookkeeping.ShownCorrection`.
- components/ChatBubble.tsx, components/VocabularyPanel.tsx and the JSX of App.tsx: rendering only.
- data/topics.ts: the static catalogue. The filter is modelled over any topic sequence; three entries serve as fixtures.
- utils/audio (`floatTo16BitPCM`, `encode`, `decode`, `decodeAudioData`): utils/audio is not part of this model. Decoding is replaced by its outcome: the buffer's duration, or a rejection (`Voice.AudioPart.DecodeFails`). Why a decode fails is not modelled.
- `handleSendMessage`, `playTts`, `handleInstallClick` and `ai.live.connect`: network, SDK and browser plumbing. `playTts` also adds sources to the source set, started at once without the cursor. The model has no such path, so its invariant that every live source belongs to the current schedule does not cover TTS playback.
- Microphone capture, the script processor, `getUserMedia` and audio-context creation: device I/O. `stopVoiceSession` also closes the session and stops the microphone tracks; the model keeps only its flag and playback effects.
- The `outputAudioContextRef.current` guard of the audio branch: a message without a context is modelled as one without audio.
- `localStorage` load and save: browser persistence.
- `Math.random` ids and `Date.now` timestamps: opaque inputs, passed as parameters.
- The async interleaving of the voice session. Line 256 writes the cursor before the decode `await`, and lines 263-264 read and write it again after it, so overlapping decodes could interleave. The model takes "schedule one decoded chunk" as one atomic step, in decode-completion order. For the same reason it does not model a second session opening when the button is pressed twice before the first opens.
- React's batching of state updates: each functional update is modelled as a sequential assignment.
- The other callers of `stopAllAudio` (`handleSendMessage`, typing in the input) are not modelled separately; they run the same `Scheduler.StopAllAudio`.
- The view state that `navigateTo` and topic choice also set (`currentView`, `currentTopic`, the navigation drawer, and the search query and level filter reset on entering the topic browser), and the `playTts` of a topic's opening message: UI state outside the modelled logic.
- "Add to Spellbook", the three-entry history display, and the level-test trigger in `handleSendMessage`: parts of the UI or of the left-out send path.
- `LevelResult.level` is taken to be a string. A reply from `JSON.parse` with no level or a non-string level is not modelled. The `score` and skill numbers are integers here.
- TopicFilter.SortTopics: proved sorted and a permutation, but not stable. The JavaScript sort is stable; ties only occur between topics with the same rank and the same title.
- TopicFilter.Lower: lowers only the ASCII letters A-Z, not the full Unicode case mapping of `toLowerCase`.
- TopicFilter.CompareStrings: compares titles lexicographically by code point, in place of the locale-sensitive collation of `localeCompare`.
