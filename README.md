# Discovery memory and procurement tool servers, modelled in Dafny

This project models the decision logic of a voice-assistant system with two halves.

**Discovery memory servers.** A Twilio/Hume voice agent interviews a caller through four
fixed "Tier 1" discovery questions (Q1..Q4) over several phone calls.
- Each server keeps a JSON memory: a map from phone number to a caller record with
  `call_count`, `questions_answered`, `conversation_notes`, `call_history` and, in some
  servers, `transcripts`.
- The servers decide when a call counts, and which questions it covered. They use a
  duration rule (a long call marks the next question by count) or a keyword rule over the
  user's words.
- From the record they render the conversation context that is injected into the
  assistant's prompt.
- The Vapi variant (`server-vapi-memory.js`, `rebuild-memory.js`) keeps per-customer call
  histories and a rolling summary of the last three calls.
- `server-simple-memory.js` moves callers through six tiers.

**Procurement tool servers.** These are the servers under `mcp-servers/`, which answer the
assistant's tool calls:
- employee lookup, with an exact name match preferred over a partial one;
- keyword search over chunked policy documents and over a vendor list, ranked top-k;
- validation of a procurement request;
- adding and patching employees in an in-memory directory.

## Layout

Shared modules:
- `text.dfy` (`Text`): the JavaScript string operations the servers use, namely
  truthiness, `||` chains, `toLowerCase`, `trim`, `includes`, a regex match count, `split`,
  `join`, `substring`, `padStart`, `parseInt`, `String(n)` and `new Set`.
- `search.dfy` (`Search`): keyword extraction, the stable descending sort, and the
  filter/sort/slice ranking.
- `discovery.dfy` (`Discovery`):
  - the four questions, the caller record and the duration rule;
  - the keyword rule, both as a function and as the loop method;
  - manual marking, and the shared pieces of the context texts.
- `callerstore.dfy` (`CallerStore`): a `Store` class holding the caller map, with
  get-or-create, put, mark, reset and the `lastUpdate` stamp.
- `chatevents.dfy` (`ChatEvents`): turning Hume chat events into a transcript.

One module per server file:
- `withmemory.dfy`, `memoryworking.dfy`, `memoryfinal.dfy`, `memorysimple.dfy`;
- `bridge.dfy`, `promptinjection.dfy`, `memoryapi.dfy`;
- `vapimemory.dfy`, `rebuild.dfy`, `tiermemory.dfy`.

The tool servers:
- `employees.dfy` (`Employees`): the employee record and the name search shared by both
  employee servers.
- `employeecontext.dfy` (`EmployeeContext`): the employee-context server.
- `sections.dfy` (`Sections`): the unified server's `##`-section chunking.
- `unified.dfy` (`UnifiedServer`): the unified server's endpoints.
- `procurementrag.dfy` (`ProcurementRag`): the procurement-rag server.

Operations that work by changing state are methods:
- on the `CallerStore.Store`, `VapiMemory.Store`, `TierStore`, `EmployeeDb`, `DocumentStore` and `RagStore` classes;
- loops that build a result;
- the in-place audio downsampler over an `array`.

Each method is proved against a specification function, and the properties are proved as
lemmas about those functions.

## Model

| member | source | states |
|---|---|---|
| Text.OrChainFirstTruthy | mcp-servers/unified-server.js:55-58 | an `a \|\| b \|\| ...` chain yields its first truthy operand |
| Text.OrChainAllFalsy | mcp-servers/unified-server.js:55-58 | with no truthy operand the chain yields its last operand, which is falsy |
| Text.Lower | mcp-servers/unified-server.js:27 | lower-casing keeps the length and maps each character on its own |
| Text.TrimStartSpec | mcp-servers/unified-server.js:27 | `trimStart` removes exactly the maximal white-space prefix |
| Text.TrimEndSpec | mcp-servers/unified-server.js:27 | `trimEnd` removes exactly the maximal white-space suffix |
| Text.TrimEmptyIff | mcp-servers/procurement-rag/server.js:93 | `chunk.trim().length > 0` holds iff the chunk has a non-white-space character |
| Text.TrimIsSlice | mcp-servers/procurement-rag/server.js:99 | the trimmed text is a contiguous slice of the original |
| Text.TrimIgnoresPadding | mcp-servers/unified-server.js:27 | `trim()` gives the same text whatever white space is added on either side |
| Text.TrimLower | mcp-servers/unified-server.js:27 | `toLowerCase().trim()` equals `trim().toLowerCase()` |
| Text.ContainsIff | mcp-servers/unified-server.js:37-39 | `includes` holds iff the needle occurs at some position |
| Text.ContainsTransitive | server-websocket-bridge.js:317-318 | a text containing a word contains every word that word contains |
| Text.CountFromPositive | mcp-servers/procurement-rag/server.js:122 | the regex match count from a position is positive iff the keyword occurs there or later |
| Text.CountFromBound | mcp-servers/procurement-rag/server.js:122 | non-overlapping matches fit in the text: count times keyword length is at most the remaining length |
| Text.CountPositiveIff | mcp-servers/procurement-rag/server.js:122 | `content.match(/kw/g).length > 0` iff the keyword occurs in the content |
| Text.IndexOfFrom | mcp-servers/procurement-rag/server.js:93 | the separator search returns a position at or after the start where the separator occurs |
| Text.IndexOfFromSpec | mcp-servers/procurement-rag/server.js:93 | it finds the first occurrence at or after the start, or reports none exists |
| Text.SplitOn | mcp-servers/procurement-rag/server.js:93 | `split` returns at least one piece |
| Text.SplitJoin | mcp-servers/procurement-rag/server.js:93 | joining the pieces of `split(sep)` with `sep` gives back the text |
| Text.SplitPiecesFree | mcp-servers/procurement-rag/server.js:93 | no piece of `split(sep)` contains the separator |
| Text.SplitFirstIsPrefix | mcp-servers/unified-server.js:152 | `split('\n')[0]` is a prefix of the content with no newline in it |
| Text.Take | server-websocket-bridge.js:332 | `substring(0, n)` is a prefix of length `min(n, \|s\|)` |
| Text.Ellipsize | server-prompt-injection-backup.js:94-104 | text longer than n becomes its first n characters plus "..."; shorter text is unchanged |
| Text.Repeat | mcp-servers/employee-context/server.js:257 | the padding is n copies of the character |
| Text.PadStart | mcp-servers/employee-context/server.js:257 | `padStart` returns a text of length max(n, \|s\|) that ends with `s`, whose every character before `s` is the fill character, and that is `s` itself when `s` already has n characters |
| Text.Dedup | mcp-servers/procurement-rag/server.js:164 | `[...new Set(xs)]` has no duplicates and exactly the elements of `xs` |
| Text.NatToString | mcp-servers/employee-context/server.js:257 | `String(n)` is a non-empty string of decimal digits |
| Text.ParseIntOfNatToString | server-memory-working.js:183 | `parseInt(String(n))` is n |
| Text.NatToStringInjective | mcp-servers/employee-context/server.js:257 | distinct numbers render as distinct texts |
| Text.LeadingDigits | server-with-memory.js:201 | `parseInt` reads the longest run of leading digits |
| Text.DigitChar | server-with-memory.js:97 | a digit value renders as its decimal digit character |
| Search.LongWords | mcp-servers/procurement-rag/server.js:114 | a word is kept iff it is a word of the input longer than three characters; none is added |
| Search.KeywordsSpec | mcp-servers/procurement-rag/server.js:113-114 | every keyword is longer than three characters, has no space, and occurs in the lower-cased query |
| Search.KeywordsNonEmpty | mcp-servers/unified-server.js:147 | no keyword is empty |
| Search.SortDescSpec | mcp-servers/procurement-rag/server.js:129 | sorting gives a permutation of the candidates in non-increasing score order |
| Search.Positive | mcp-servers/procurement-rag/server.js:128 | every candidate the filter keeps has a positive score |
| Search.TopKSpec | mcp-servers/procurement-rag/server.js:128-130 | the ranking has at most k entries, each from the input with a positive score, in non-increasing order |
| Search.TopKDominates | mcp-servers/procurement-rag/server.js:128-130 | a positive-scoring candidate is left out only when k others scoring at least as high are kept |
| Search.TopKNoneScored | mcp-servers/unified-server.js:177 | with no positive score the ranking is empty |
| Discovery.Tier1IdsAgree | server-with-memory.js:24-45 | the question ids are Q1..Q4 in definition order |
| Discovery.Find | server-with-memory.js:101 | `TIER1_QUESTIONS.find` returns the question with that id, if one exists |
| Discovery.KeywordsFor | server-websocket-bridge.js:316-323 | no keywords for an id outside Q1..Q4, and no keyword is empty |
| Discovery.NewCaller | server-with-memory.js:64-81 | a new record has no calls, no answers, no notes and an empty history |
| Discovery.NextQuestion | server-with-memory.js:89-94 | the next question is the one at index `\|questions_answered\|`, or none after four |
| Discovery.RecordCall | server-with-memory.js:208-214 | recording a call adds 1 to `call_count` and appends exactly one history entry |
| Discovery.DurationAppendOnly | server-with-memory.js:218-224 | the duration rule appends at most one id, never past four, and changes only answers and notes |
| Discovery.DurationMarksByCount | server-with-memory.js:218-222 | a call over 60 seconds appends the id at index `\|questions_answered\|` with its note |
| Discovery.DurationKeepsPath | server-with-memory.js:218-224 | through the duration rule alone the answers stay a prefix of Q1..Q4 |
| Discovery.DurationAfterManualRepeats | server-with-memory.js:218-220 | after a manual mark of Q2 on a fresh record, a long call appends Q2 again |
| Discovery.FirstUnanswered | server-with-memory.js:218-219 | the index of the first Tier 1 question not yet answered, and none iff all four are answered |
| Discovery.FirstUnansweredSpec | server-with-memory.js:218-222 | the intended duration rule appends one unanswered id exactly when a long call leaves one, and never creates a repeat |
| Discovery.FirstUnansweredOnPath | server-with-memory.js:218-222 | on the duration path the intended rule and the rule as written give the same record |
| Discovery.FirstUnansweredAfterManual | server-with-memory.js:218-220 | after a manual mark of Q2, the intended rule marks Q1 instead of Q2 again |
| Discovery.CompleteCallSpec | server-with-memory.js:208-224 | a completed call counts once, keeps `call_count == \|call_history\|`, and keeps the duration path |
| Discovery.ManualMarkSpec | server-with-memory.js:273-277 | a manual mark appends an absent id with its note; a present id is a no-op; no duplicates |
| Discovery.UserTexts | server-websocket-bridge.js:308-310 | a text is listed iff some message with role `user` carries it; no more texts than messages |
| Discovery.UserTextsAppend | server-websocket-bridge.js:308-310 | the texts keep transcript order: those of a concatenation are the concatenation of the texts |
| Discovery.KeywordNote | server-websocket-bridge.js:328-332 | the keyword note is at most 200 characters of user text plus "..." |
| Discovery.MarkByKeywordsMembership | server-websocket-bridge.js:314-336 | a question is answered afterwards iff it was already answered or one of its keywords occurs in the user text |
| Discovery.MarkByKeywordsAppendOnly | server-websocket-bridge.js:314-336 | the rule appends the newly mentioned ids in Q1..Q4 order, never removes or reorders an answer, and adds no duplicate |
| Discovery.MarkByKeywordsNotes | server-websocket-bridge.js:328-332 | every note written is the shared note; other notes are kept |
| Discovery.WentWrongMarksBoth | server-websocket-bridge.js:317-318 | a user text containing "went wrong" marks both Q1 and Q2 |
| Discovery.ApplyKeywordRule | server-websocket-bridge.js:314-336 | the `forEach` loop computes the keyword rule |
| Discovery.ProgressLine | server-with-memory.js:100-106 | a line is written for an answered id only under the renderer's known-id and note conditions |
| Discovery.ProgressTextAppend | server-with-memory.js:100-106 | lines follow `questions_answered` order |
| Discovery.ProgressTextEmpty | server-with-memory.js:100-106 | the list is empty iff no answered id qualifies for a line |
| Discovery.BuildProgress | server-with-memory.js:100-106 | the `forEach` loop builds the progress text |
| Discovery.ChecklistSpec | server-memory-working.js:106-111 | the checklist names the four questions in definition order, each flagged by whether its id is answered |
| Discovery.ChecklistByMembership | server-memory-working.js:106-111 | the checklist depends only on which ids are answered |
| CallerStore.GetOrCreateInSpec | server-with-memory.js:64-81 | a known phone is returned untouched; an unseen phone gets exactly one new record; nothing else changes |
| CallerStore.MarkInSpec | server-with-memory.js:266-277 | an unknown phone is the 404; marking touches only that record and keeps counts agreeing and ids distinct |
| CallerStore.ResetInSpec | server-with-memory.js:289-300 | reset deletes the named record, or is the 404; no other record changes |
| CallerStore.Store.constructor | server-with-memory.js:48-50 | a fresh memory holds no callers and no `lastUpdate` |
| CallerStore.Store.GetOrCreate | server-with-memory.js:64-81 | the store after get-or-create, and the record returned |
| CallerStore.Store.Put | server-with-memory.js:226 | only the named record is replaced |
| CallerStore.Store.Mark | server-with-memory.js:266-277 | the store after a manual mark, or unchanged with the 404 |
| CallerStore.Store.Reset | server-with-memory.js:293-299 | the store after delete, or unchanged with the 404 |
| CallerStore.Store.Stamp | server-memory-final.js:50-53 | `writeMemory` sets `lastUpdate` and changes no record |
| WithMemory.GetOrCreateCaller | server-with-memory.js:64-81 | get-or-create with the record this server creates |
| WithMemory.CallStatusSpec | server-with-memory.js:201-228 | the store changes iff the call completed, lasted over 10 s and the caller exists; only that record changes; counts stay in agreement; the duration path is kept |
| WithMemory.LongCallMarksNext | server-with-memory.js:218-222 | a 90-second call marks the next question by count, with a note naming the duration |
| WithMemory.CallStatus | server-with-memory.js:201-235 | always 200; the store becomes the specified post-status map |
| WithMemory.MarkAnswered | server-with-memory.js:258-286 | 400 iff phone or questionId is missing; 404 iff the caller is unknown; otherwise the manual mark |
| WithMemory.Reset | server-with-memory.js:289-300 | 200 and delete for a known phone, else 404 and no change |
| WithMemory.ContextCases | server-with-memory.js:84-114 | the new-caller text iff `call_count == 0`; the completion text after four; otherwise "Call #(count+1)" and the next question by count |
| WithMemory.ContextReturning | server-with-memory.js:97-111 | a returning caller's context starts with the call-number header and ends with the next question |
| WithMemory.ContextProgressLine | server-with-memory.js:100-106 | a progress line appears iff the id is one of Q1..Q4 with a truthy note |
| WithMemory.ContextAsksByCount | server-with-memory.js:89-90 | a caller who has only Q2 is asked Q2 again |
| MemoryWorking.GetOrCreateCaller | server-memory-working.js:55-69 | get-or-create with the record this server creates |
| MemoryWorking.CallStatusSpec | server-memory-working.js:183-206 | recorded iff completed, `parseInt(Duration) \|\| 0 > 30` and the caller exists; one call and one entry with the numeric duration; over 60 s with fewer than four answers, exactly `TIER1_QUESTIONS[questions_answered.length].id` is appended with the duration note, otherwise the answers are unchanged |
| MemoryWorking.NonNumericDurationIgnored | server-memory-working.js:183 | a non-numeric duration counts as 0 seconds and changes nothing |
| MemoryWorking.CallStatus | server-memory-working.js:176-214 | always 200; the store becomes the specified post-status map |
| MemoryWorking.MarkAnswered | server-memory-working.js:231-252 | 400 without phone or questionId, 404 for an unknown caller, never a duplicate |
| MemoryWorking.Reset | server-memory-working.js:255-264 | delete the phone, or 404 |
| MemoryWorking.StatusCases | server-memory-working.js:79-104 | "NEW CALLER" iff `call_count == 0`; otherwise the call number and the next question by count, or the completion text |
| MemoryWorking.StatusReturning | server-memory-working.js:82-103 | a returning caller's section starts with its call-number header |
| MemoryWorking.EveryAnswerListed | server-memory-working.js:86-90 | every answered id gets a line: unknown ids print raw, a missing note prints "Covered" |
| MemoryWorking.ChecklistMarks | server-memory-working.js:106-111 | the checklist is the four question entries in definition order, each flagged by whether its id is answered |
| MemoryWorking.ItemFlag | server-memory-working.js:108-110 | an entry carries `[✓]` when answered and `[ ]` otherwise |
| MemoryFinal.GetOrCreateCaller | server-memory-final.js:55-70 | get-or-create with the record this server creates, written with the `lastUpdate` stamp |
| MemoryFinal.CallStatusSpec | server-memory-final.js:143-170 | a completed call over 30 s is recorded even for an unseen phone, which gets a record; one call, `last_call`, one entry; over 60 s with fewer than four answers, exactly `TIER1_QUESTIONS[questions_answered.length].id` is appended with the duration note, otherwise the answers are unchanged |
| MemoryFinal.FirstLongCallCreatesAndMarks | server-memory-final.js:143-167 | a first long call from an unseen phone creates the record and marks Q1 |
| MemoryFinal.CallStatus | server-memory-final.js:134-185 | always 200; the store becomes the specified post-status map |
| MemoryFinal.MarkAnswered | server-memory-final.js:202-230 | 400 without phone or questionId, 404 for an unknown caller, no-op for a present id |
| MemoryFinal.ResetFreshSpec | server-memory-final.js:233-252 | after reset the phone has a fresh record again and every other record is untouched |
| MemoryFinal.Reset | server-memory-final.js:233-252 | 404 for an unknown phone; otherwise delete, then recreate through the prompt rebuild |
| MemoryFinal.UpdatePrompt | server-memory-final.js:72-131 | the prompt is the base prompt plus the memory section of the fetched or created record |
| MemoryFinal.StatusCases | server-memory-final.js:81-109 | NEW vs RETURNING iff `call_count == 0`; the next question by count or the completion text |
| MemoryFinal.StatusReturning | server-memory-final.js:84-108 | a returning caller's section starts with its call-number header |
| MemoryFinal.EveryAnswerListed | server-memory-final.js:89-95 | every answered id gets a line: unknown ids print raw, a missing note prints "Discussed" |
| MemoryFinal.ChecklistMarks | server-memory-final.js:111-116 | the checklist is the four question entries in definition order, each flagged by whether its id is answered |
| MemoryFinal.ItemFlag | server-memory-final.js:113-115 | an entry is tagged "✓ DONE" when answered and "PENDING" otherwise |
| MemorySimple.GetOrCreateCaller | server-memory-simple.js:59-73 | get-or-create with the record this server creates |
| MemorySimple.StatusCases | server-memory-simple.js:84-111 | new vs returning by `call_count`; the next question at index `\|questions_answered\|` while below 4, else "ALL QUESTIONS COMPLETE" |
| MemorySimple.OnlyKnownListed | server-memory-simple.js:90-100 | only ids among Q1..Q4 get a line; a missing note prints "Discussed" |
| MemorySimple.ChecklistIgnoresProgress | server-memory-simple.js:113-117 | the question list is the same whatever the caller's progress |
| MemorySimple.ChecklistFixed | server-memory-simple.js:113-117 | all four questions are listed, in definition order |
| MemorySimple.NextLabel | server-memory-simple.js:147-149 | `next_question` is the short label at index `\|questions_answered\|`, or "All complete" |
| MemorySimple.NextLabelMatchesPrompt | server-memory-simple.js:102-110 | the reported next question is the one the prompt asks |
| MemorySimple.PrepareCall | server-memory-simple.js:123-156 | the caller is fetched or created, and the prompt and `next_question` are built from it |
| MemorySimple.CallStatusSpec | server-memory-simple.js:166-185 | recorded iff completed, over 30 s and the caller exists; one call and one entry; over 60 s with fewer than four answers, exactly `TIER1_QUESTIONS[questions_answered.length].id` is appended with the duration note, otherwise the answers are unchanged |
| MemorySimple.CallStatus | server-memory-simple.js:159-192 | always 200; the store becomes the specified post-status map |
| MemorySimple.MarkAnswered | server-memory-simple.js:195-216 | no 400 check; 404 for an unknown caller; a given question id is never appended twice |
| MemorySimple.Reset | server-memory-simple.js:234-244 | delete the phone, or 404 |
| Bridge.GetOrCreateCaller | server-websocket-bridge.js:58-73 | get-or-create with a record that also starts with `transcripts: []` |
| Bridge.NewCallerEmpty | server-websocket-bridge.js:58-73 | a new record has count 0 and empty answers, notes, history and transcripts |
| Bridge.ContextCases | server-websocket-bridge.js:75-105 | new-caller text iff `call_count == 0`; the next question by count, or "ALL 4 QUESTIONS COMPLETE" |
| Bridge.CoveredLine | server-websocket-bridge.js:86-92 | a covered line needs a known id with a truthy note |
| Bridge.Connect | server-websocket-bridge.js:138-150 | the session prompt is the base prompt, the context header and the context of the fetched or created record |
| Bridge.Capture | server-websocket-bridge.js:184-189 | only user and assistant messages become transcript entries, with the role mapped, the text `content \|\| text` (an absent text as the empty string) and the current time as timestamp |
| Bridge.SaveSpec | server-websocket-bridge.js:281-336 | nothing changes for an empty transcript or an unknown caller; otherwise one call, one history entry, one transcript, and the keyword rule |
| Bridge.SavedCaller | server-websocket-bridge.js:294-336 | a saved record gains one call, one history entry and one transcript, keeps its invariants, and gains exactly the questions whose keywords the caller said |
| Bridge.SaveNotes | server-websocket-bridge.js:328-332 | every note a save writes is at most 200 characters of user text plus "..." |
| Bridge.SaveConversation | server-websocket-bridge.js:281-341 | the store becomes the specified post-save map |
| Bridge.Reset | server-websocket-bridge.js:374-383 | delete the phone, or 404 |
| Bridge.ReadInt16LE | server-websocket-bridge.js:205 | `readInt16LE` is a signed value in -32768..32767 |
| Bridge.Int16RoundTrip | server-websocket-bridge.js:205 | writing back a read sample gives the same two bytes, and reading a written value gives the value |
| Bridge.Downsampled | server-websocket-bridge.js:201-206 | the output has `2·floor(n/4)` bytes |
| Bridge.DownsampledBytes | server-websocket-bridge.js:204-206 | output bytes 2i and 2i+1 are input bytes 4i and 4i+1 |
| Bridge.DownsampledSamples | server-websocket-bridge.js:204-206 | output sample i is the input sample at byte offset 4i |
| Bridge.Downsample | server-websocket-bridge.js:201-206 | the loop fills a fresh array with exactly the downsampled bytes |
| ChatEvents.Transcript | server-memory-api.js:132-141 | the transcript is no longer than the events |
| ChatEvents.TranscriptAppend | server-memory-api.js:132-141 | events keep their order: the transcript of a concatenation is the concatenation |
| ChatEvents.TranscriptMembers | server-memory-api.js:132-141 | every entry comes from a user or agent message event, with the role mapped and the text defaulting to '' |
| ChatEvents.TranscriptEmpty | server-memory-api.js:132-145 | the transcript is empty iff no event is a user or agent message |
| ChatEvents.ExtractTranscript | server-memory-api.js:132-141 | the loop computes the transcript |
| PromptInjection.GetOrCreateCaller | server-prompt-injection-backup.js:56-72 | get-or-create with this server's record |
| PromptInjection.RecentWindowSpec | server-prompt-injection-backup.js:87-91 | at most the last two transcripts, numbered consecutively, the last numbered `\|transcripts\|` |
| PromptInjection.SummaryCases | server-prompt-injection-backup.js:74-131 | null iff `call_count == 0` or the history is empty; the tail names the next question by count, or says all are covered |
| PromptInjection.CallBlockSnippet | server-prompt-injection-backup.js:94-104 | user text over 300 characters is cut to 300 plus "..."; shorter text is verbatim |
| PromptInjection.TopicLine | server-prompt-injection-backup.js:109-116 | a topic line needs a known id with a truthy note |
| PromptInjection.ReturningHasSummary | server-prompt-injection-backup.js:134-199 | a returning caller's injected prompt contains the summary |
| PromptInjection.Voice | server-prompt-injection-backup.js:134-199 | the record is fetched or created; a returning caller gets the injected prompt and, when one was created, its temporary configuration, stored on the record; a new caller gets the default configuration |
| PromptInjection.FetchSpec | server-prompt-injection-backup.js:225-324 | nothing changes without a record or with an empty transcript; otherwise transcripts, history and count each grow by one, then the keyword rule |
| PromptInjection.FetchedCaller | server-prompt-injection-backup.js:273-323 | a fetched record gains one transcript (in a new list if it had none), one call and one history entry, stores the group, keeps its invariants, and gains exactly the questions whose keywords the caller said |
| PromptInjection.FetchAndSaveTranscript | server-prompt-injection-backup.js:225-342 | the store becomes the specified post-fetch map |
| PromptInjection.CallStatus | server-prompt-injection-backup.js:202-223 | a completed call triggers the fetch; always 200 |
| PromptInjection.ManualFetch | server-prompt-injection-backup.js:355-362 | the fetch with the call id "manual" |
| MemoryApi.GetOrCreateCaller | server-memory-api.js:55-70 | get-or-create with `chat_group_id` null |
| MemoryApi.FetchSpec | server-memory-api.js:96-184 | nothing changes without a record or with an empty transcript; otherwise one call, the group id, one entry, then the keyword rule |
| MemoryApi.FetchedCaller | server-memory-api.js:147-184 | a fetched record gains one call and one history entry, stores the group, keeps its transcripts and invariants, and gains exactly the questions whose keywords the caller said |
| MemoryApi.FetchAndSaveTranscript | server-memory-api.js:96-190 | the store becomes the specified post-fetch map |
| MemoryApi.CallStatus | server-memory-api.js:73-94 | a completed call triggers the fetch; always 200 |
| MemoryApi.ManualFetch | server-memory-api.js:203-210 | the fetch with the call id "manual" |
| VapiMemory.DialogueLines | server-vapi-memory.js:76-78 | one dialogue line per transcript entry |
| VapiMemory.Window | server-vapi-memory.js:59 | `slice(-3)` is the last at most three entries |
| VapiMemory.SummaryShape | server-vapi-memory.js:66-98 | '' for no calls; otherwise "called N time(s)" with N the window size |
| VapiMemory.CallSectionsOrder | server-vapi-memory.js:70-96 | call sections appear in window order, numbered from 1 |
| VapiMemory.WindowedSummary | server-vapi-memory.js:59-60 | a summary covers at most the last three calls and never claims more than three |
| VapiMemory.DialogueLinesSpec | server-vapi-memory.js:76-78 | dialogue lines follow transcript order, each labelled by its role |
| VapiMemory.DialogueLabels | server-vapi-memory.js:77 | role `user` is "User"; every other role is "Assistant" |
| VapiMemory.CallSectionParts | server-vapi-memory.js:72-94 | a call section has its number and date, the "Summary:" line only for a truthy summary, and dialogue over 800 characters cut to 800 plus "..." |
| VapiMemory.RouteOf | server-vapi-memory.js:102-115 | only the three known types are dispatched; anything else is ignored |
| VapiMemory.MessageTypeFallback | server-vapi-memory.js:103 | `message.type` wins when truthy; the top-level type is used otherwise |
| VapiMemory.RequestPhoneChain | server-vapi-memory.js:125-127 | the phone is the first truthy of the three places it may be, falling through to `call.customer.number` when the message has neither |
| VapiMemory.Normalize | server-vapi-memory.js:205-211 | the normalised transcript is no longer than the input |
| VapiMemory.NormalizeAppend | server-vapi-memory.js:205-211 | normalisation keeps order |
| VapiMemory.NormalizeMembers | server-vapi-memory.js:205-211 | system messages are dropped; every kept entry takes its role and `content \|\| message` |
| VapiMemory.SaveSpec | server-vapi-memory.js:38-64 | saving creates the customer if needed, appends exactly one history entry and recomputes the summary; other customers are unchanged |
| VapiMemory.SaveSummary | server-vapi-memory.js:59-60 | the rebuilt summary covers the last three calls or fewer, with the new call last |
| VapiMemory.FindIn | server-vapi-memory.js:33-36 | a lookup finds the stored customer of the phone |
| VapiMemory.Store.constructor | server-vapi-memory.js:20-23 | a fresh memory holds no customers |
| VapiMemory.Store.SaveCallTranscript | server-vapi-memory.js:38-64 | the store becomes the specified post-save map |
| VapiMemory.Store.Clear | server-vapi-memory.js:248-251 | `DELETE /memory` leaves no customers |
| VapiMemory.Reply | server-vapi-memory.js:140-151 | an unknown caller gets the base prompt and the default greeting; a known one gets a prompt that starts with `base + "\n\n---\n\n"`, ends with the summary and has nothing in between, and the welcome-back greeting |
| VapiMemory.EndOfCallSpec | server-vapi-memory.js:186-222 | a report without a truthy phone or transcript changes nothing; otherwise its customer gains exactly the report's call, last, and no other customer changes |
| VapiMemory.HandleEndOfCall | server-vapi-memory.js:186-222 | the store becomes the post-report map, for the router and for the legacy `/webhook/end-of-call-report` route, which saves a report whatever its type |
| VapiMemory.WebhookSpec | server-vapi-memory.js:101-231 | only a report with a truthy phone and a truthy transcript changes the store, by one save; every other message changes nothing |
| VapiMemory.Webhook | server-vapi-memory.js:101-231 | the store becomes the specified post-webhook map; only an assistant request gets a reply, built from the stored customer of its phone |
| RebuildMemory.RebuildSpec | rebuild-memory.js:44-49 | every customer's summary is rebuilt from its last three calls; keys and histories are unchanged; running it twice equals running it once |
| RebuildMemory.RebuildAfterSave | rebuild-memory.js:44-49 | a summary written by a save is left as it is |
| RebuildMemory.Rebuild | rebuild-memory.js:44-49 | the loop over customers computes the rebuild |
| RebuildMemory.RebuildAllPointwise | rebuild-memory.js:44-49 | the rebuild is determined customer by customer |
| TierMemory.NewTierCallerConsistent | server-simple-memory.js:34-50 | a new caller starts in tier 1 with no calls and an empty history |
| TierMemory.ProgressSpec | server-simple-memory.js:53-72 | one more call; one history entry tagged with the tier before the step; the tier steps up but saturates at 6 |
| TierMemory.TierAfterCalls | server-simple-memory.js:67-69 | after n calls from a new record the tier is `min(n + 1, 6)` |
| TierMemory.TierConfigFallback | server-simple-memory.js:75-87 | the tier's config id, else tier 1's, else the default |
| TierMemory.TierNamesDistinct | server-simple-memory.js:90-100 | tiers 1..6 have six distinct names, none "Discovery"; any other tier is "Discovery" |
| TierMemory.TierStore.constructor | server-simple-memory.js:17-20 | a fresh memory holds no callers |
| TierMemory.TierStore.GetOrCreateCaller | server-simple-memory.js:34-50 | get-or-create with a tier-1 record |
| TierMemory.TierStore.UpdateCallerProgress | server-simple-memory.js:53-72 | progress for a known phone; an unknown phone is the throw and changes nothing |
| TierMemory.TierStore.Voice | server-simple-memory.js:103-147 | the caller's tier and the configuration it routes to |
| TierMemory.TierStore.CallStatus | server-simple-memory.js:150-176 | a completed call counts for a known caller; no record is created; always 200 |
| TierMemory.TierStore.Reset | server-simple-memory.js:198-209 | delete the phone, or 404 |
| TierMemory.CallStatusKeepsConsistent | server-simple-memory.js:150-176 | a status update keeps every record's tier in 1..6 and consistent with its calls |
| Employees.FirstExact | mcp-servers/unified-server.js:29-33 | the first exact match in list order, or none |
| Employees.FirstPartial | mcp-servers/unified-server.js:35-41 | the first partial match in list order, or none |
| Employees.FindSpec | mcp-servers/unified-server.js:26-44 | an exact match anywhere wins, the first one; without one, the first partial match; none iff neither exists |
| Employees.SearchIgnoresCaseAndPadding | mcp-servers/unified-server.js:26-44 | the lookup's result for a raw query is unchanged by white space added on either side and equal for any two queries with the same lower-case form |
| Employees.ExactIgnoresCaseAndPadding | mcp-servers/employee-context/server.js:150-170 | a raw query equal to a (trimmed) stored first name or full name up to case, with any white space around it, matches that employee exactly and partially |
| EmployeeContext.HistoryTypes | mcp-servers/employee-context/server.js:219-221 | one type text per legal-history entry |
| EmployeeContext.HistoryTypesSpec | mcp-servers/employee-context/server.js:219-221 | the types of the entries, in order |
| EmployeeContext.LookupSpec | mcp-servers/employee-context/server.js:173-227 | 400 iff the name is missing; not found iff the search finds nothing; direct-report and legal counts equal the list lengths; the history text |
| EmployeeContext.NewIdInjective | mcp-servers/employee-context/server.js:257 | different list lengths give different ids |
| EmployeeContext.IdsDistinct | mcp-servers/employee-context/server.js:255-279 | ids made by position are distinct |
| EmployeeContext.PatchStep | mcp-servers/employee-context/server.js:296-301 | one body key overwrites that field only, never `id` |
| EmployeeContext.PatchedKeeps | mcp-servers/employee-context/server.js:296-301 | a patch keeps the id |
| EmployeeContext.IndexOfId | mcp-servers/employee-context/server.js:230-238 | the first index holding the id, or none |
| EmployeeContext.EmployeeById | mcp-servers/employee-context/server.js:230-238 | the employee with that id, or 404 |
| EmployeeContext.Listing | mcp-servers/employee-context/server.js:241-252 | the listing has the same count as the directory |
| EmployeeContext.ListingSpec | mcp-servers/employee-context/server.js:241-252 | same count and order, each projected to five fields |
| EmployeeContext.EmployeeDb.constructor | mcp-servers/employee-context/server.js:147 | the directory holds the employees loaded at start-up |
| EmployeeContext.EmployeeDb.Add | mcp-servers/employee-context/server.js:255-288 | appends one employee at the end with the next id and the defaults; ids stay positional |
| EmployeeContext.EmployeeDb.Patch | mcp-servers/employee-context/server.js:291-313 | 404 for an unknown id; otherwise only that employee changes, by the body's keys except `id` |
| EmployeeContext.EmployeeDb.AppendLegalHistory | mcp-servers/employee-context/server.js:316-338 | 404 for an unknown id; otherwise exactly one entry is appended to that employee |
| EmployeeContext.EmployeeDb.List | mcp-servers/employee-context/server.js:241-252 | the listing of the directory |
| Sections.KeepNonBlank | mcp-servers/unified-server.js:120 | keeps exactly the pieces that are not blank, in order |
| Sections.SplitFrom | mcp-servers/unified-server.js:120 | the lookahead split yields at least one piece |
| Sections.SplitFromConcat | mcp-servers/unified-server.js:120 | the pieces concatenate back to the text |
| Sections.SplitBeforeHeaderSpec | mcp-servers/unified-server.js:120 | the split is lossless, no piece has a header after its first character, and every piece after the first starts with one |
| Sections.SubsectionSplitIsIdentity | mcp-servers/unified-server.js:124 | splitting a section before `###` headers leaves it whole |
| Sections.SubheaderCutAfterFirstHash | mcp-servers/unified-server.js:120 | a `### ` header is cut after its first `#` |
| Sections.SectionsDocsSpec | mcp-servers/unified-server.js:122-134 | the k-th chunk of a file is its trimmed k-th non-blank section, id `file-section-k-0` |
| Sections.FileDocsSpec | mcp-servers/unified-server.js:117-135 | every chunk of a document file has that file's name and a non-empty trimmed content |
| Sections.AllDocsFromDocFiles | mcp-servers/unified-server.js:117-118 | only `.md` and `.txt` files contribute chunks |
| Sections.DocumentStore.constructor | mcp-servers/unified-server.js:105 | no documents before loading |
| Sections.DocumentStore.LoadDocuments | mcp-servers/unified-server.js:107-143 | the documents become the chunks of all files, in order |
| Sections.DocumentStore.PushFile | mcp-servers/unified-server.js:117-135 | one file's chunks are appended |
| UnifiedServer.ArgSources | mcp-servers/unified-server.js:55-58 | the places read, in order: `body[key]`, `body.parameters[key]`, the `toolCalls` arguments (not for the vendor search), and the `toolCallList` arguments last |
| UnifiedServer.ArgumentSpec | mcp-servers/unified-server.js:55-58 | the argument is the first truthy place; falsy values fall through |
| UnifiedServer.VendorSearchSkipsToolCalls | mcp-servers/unified-server.js:298-300 | the vendor search never reads `message.toolCalls` |
| UnifiedServer.FoundTextPrefix | mcp-servers/unified-server.js:90 | the found text starts with "Employee found: " |
| UnifiedServer.LookupEmployeeSpec | mcp-servers/unified-server.js:47-98 | 400 with "Error: Name parameter is required" iff no name; not found iff the search fails; `toolCallId` defaults to "unknown" |
| UnifiedServer.ScoreDocument | mcp-servers/unified-server.js:149-175 | the keyword loop computes the doubled document score |
| UnifiedServer.KeywordsTotalPositive | mcp-servers/unified-server.js:155-168 | the keyword total is positive iff some keyword occurs in the content |
| UnifiedServer.DocScorePositive | mcp-servers/unified-server.js:149-177 | a document scores above zero iff some keyword occurs in it; halving for short content keeps the sign |
| UnifiedServer.ScoreDocs | mcp-servers/unified-server.js:149-176 | one score per document, in order |
| UnifiedServer.SearchDocumentsSpec | mcp-servers/unified-server.js:145-182 | at most 3 results, each a document with a positive score, in non-increasing order |
| UnifiedServer.SearchDocumentsDominates | mcp-servers/unified-server.js:177-179 | a matching document is left out only when 3 others scoring at least as high are kept |
| Sections.Contents | mcp-servers/unified-server.js:226 | one content per result, in rank order (shared with mcp-servers/procurement-rag/server.js:156) |
| UnifiedServer.SearchPoliciesSpec | mcp-servers/unified-server.js:185-237 | 400 iff no query; the fallback text iff no document scores; otherwise the contents joined by spaces |
| UnifiedServer.CountPairs | mcp-servers/unified-server.js:267-282 | the nested loops count (item, keyword) containments |
| UnifiedServer.CountMatches | mcp-servers/unified-server.js:268-272 | the inner loop adds the points once per keyword the item contains |
| UnifiedServer.ScoreVendor | mcp-servers/unified-server.js:258-284 | 10 for the name plus 5 per skill pair plus 3 per project pair |
| UnifiedServer.PairCountPositive | mcp-servers/unified-server.js:267-282 | the pair count is positive iff some item contains some keyword |
| UnifiedServer.VendorScorePositive | mcp-servers/unified-server.js:258-286 | a vendor scores above zero iff its name contains the query or a skill or project contains a keyword |
| UnifiedServer.ScoreVendors | mcp-servers/unified-server.js:258-285 | one score per vendor, in order |
| UnifiedServer.SearchVendorsSpec | mcp-servers/unified-server.js:254-291 | at most 5 results, each a vendor with a positive score, in non-increasing order |
| UnifiedServer.SearchVendorsDominates | mcp-servers/unified-server.js:285-287 | a vendor with a positive score is left out only when 5 others scoring at least as high are kept |
| UnifiedServer.VendorLines | mcp-servers/unified-server.js:326-328 | one line per vendor |
| UnifiedServer.SearchVendorsEndpointSpec | mcp-servers/unified-server.js:294-338 | 400 iff no query; the fallback text iff no vendor scores; otherwise the vendor lines |
| UnifiedServer.MissingOf | mcp-servers/unified-server.js:349-352 | every missing label is the label of one of the requirements, and there are no more labels than requirements |
| UnifiedServer.MissingOfAppend | mcp-servers/unified-server.js:349-352 | the labels keep the requirements' order: those of a concatenation are the concatenation of the labels |
| UnifiedServer.MissingOfSpec | mcp-servers/unified-server.js:349-352 | with distinct labels, a label is missing iff its required field is falsy |
| UnifiedServer.ValidateProcurementRequest | mcp-servers/unified-server.js:344-356 | the pushes compute exactly the missing list and the deadline warning |
| UnifiedServer.MissingIff | mcp-servers/unified-server.js:349-352 | a label is missing iff its field is falsy |
| UnifiedServer.MissingIgnoresDeadline | mcp-servers/unified-server.js:353 | the deadline never affects `missing` |
| UnifiedServer.MissingAllFour | mcp-servers/unified-server.js:349-352 | with no fields, all four labels are missing, in order |
| UnifiedServer.ValidationTextSpec | mcp-servers/unified-server.js:369-381 | a missing field gives the missing text; otherwise the ready text, with the warning only when nothing is missing |
| UnifiedServer.ValidateEmptyRequest | mcp-servers/unified-server.js:363-381 | every request whose arguments read as `{}` is answered with all four missing fields, named in order and joined by ", "; with no message the tool-call id is "unknown" |
| UnifiedServer.FieldsEmptyCases | mcp-servers/unified-server.js:363 | no message, an empty `toolCallList` and a first tool call without `arguments` all read as `{}` |
| ProcurementRag.ChunkIdInjective | mcp-servers/procurement-rag/server.js:97 | distinct indices give distinct chunk ids |
| ProcurementRag.FileChunksSpec | mcp-servers/procurement-rag/server.js:88-101 | ids `file-chunk-i` by kept index; the file name; content non-empty, trimmed, without "\n\n"; distinct ids |
| ProcurementRag.AllChunksFromDocFiles | mcp-servers/procurement-rag/server.js:88-89 | only `.txt` and `.md` files contribute chunks |
| ProcurementRag.ScoreChunk | mcp-servers/procurement-rag/server.js:116-126 | the keyword loop sums the match counts |
| ProcurementRag.ChunkScorePositive | mcp-servers/procurement-rag/server.js:116-128 | a chunk scores above zero iff some keyword occurs in it |
| ProcurementRag.ScoreChunks | mcp-servers/procurement-rag/server.js:116-127 | one score per chunk, in order |
| ProcurementRag.SearchDocumentsSpec | mcp-servers/procurement-rag/server.js:112-133 | at most 3 results, each a chunk with a positive score, in non-increasing order |
| ProcurementRag.SearchDocumentsDominates | mcp-servers/procurement-rag/server.js:128-130 | a matching chunk is left out only when 3 others scoring at least as high are kept |
| ProcurementRag.Filenames | mcp-servers/procurement-rag/server.js:164 | one file name per result |
| ProcurementRag.SearchPoliciesSpec | mcp-servers/procurement-rag/server.js:136-166 | 400 iff no query; `found:false` iff no chunk scores; otherwise the contents joined by "\n\n" |
| ProcurementRag.SourcesSpec | mcp-servers/procurement-rag/server.js:164 | sources are duplicate-free, and a file is a source iff some result comes from it |
| ProcurementRag.RagStore.constructor | mcp-servers/procurement-rag/server.js:13 | no documents before loading |
| ProcurementRag.RagStore.LoadDocuments | mcp-servers/procurement-rag/server.js:82-109 | the documents become the chunks of all files, in order |
| ProcurementRag.RagStore.PushFile | mcp-servers/procurement-rag/server.js:88-101 | one file's chunks are appended |

## Left out

- I/O is not modelled: the JSON files, `fs`, Express, the WebSocket plumbing, and the Hume,
  Twilio and Vapi SDK calls. A file read becomes a parameter, and a write becomes the new
  state of a store class.
- The clock and the locale are not modelled: `new Date().toISOString()` is a `now`
  parameter, and `toLocaleDateString` is a `dateOf` function parameter.
- Concurrency is not modelled: the servers interleave asynchronous handlers over one file,
  and each handler is modelled as one atomic step.
- Strings are sequences of Unicode scalar values, not UTF-16 code units. Lengths and
  `substring` differ on astral characters.
- `toLowerCase` is modelled on ASCII letters only.
- `parseInt` is modelled for decimal text (white space, sign, digits); hexadecimal prefixes
  are not modelled.
- The keywords passed to `new RegExp(keyword, 'g')` are treated as literal text. Regular
  expression metacharacters in a query are not interpreted.
- Floating point is not modelled. The unified server's `score * 0.5` for short content is
  modelled by doubling every other score (UnifiedServer.ScoreDocument), which keeps the
  ranking and the sign.
- The ordering of JavaScript's `sort` on equal scores is implementation-defined. It is
  modelled as a stable sort.
- Audio is handled only up to the 16 kHz to 8 kHz downsampling. μ-law encoding and base64
  are not modelled.
- The bridge's `message.message?.content || message.text` when both are undefined stores
  '' rather than `undefined`.
- Of the Vapi call metadata, only `summary` is modelled.
- POST /employee: identity fields are taken as given strings; an absent one, which the
  source stores as `undefined` and so drops from the saved JSON, is not modelled. The keys
  `directReports`, `projects`, `specialties`, `legalHistory` and `preferences` are modelled
  as absent (the default applies) or as a value of the right type (used as given); a falsy
  value of another type, such as `0` or `""`, which the source also replaces by the default,
  and a truthy value of another type, which it stores as it is, are not modelled.
- PATCH /employee/:id: only keys naming one of the employee's text or list fields, with a
  value of that type, are modelled. Unknown keys, `legalHistory`, `preferences` and values
  of another type are ignored, whereas the source would store them as they are.
- Tool-call arguments in the unified server are modelled as strings only
  (UnifiedServer.Args). The source reads arbitrary JSON values. Under JavaScript truthiness
  an empty array such as `milestones: []` counts as present, and `budget_number: 0` as
  missing, in `validateProcurementRequest`. A numeric `name` or `query` makes
  `toLowerCase` throw, which Express answers with a 500. None of these is modelled.
- Bridge.Saves: a caller record without a `transcripts` array, such as one written by
  another memory server sharing the file, makes `caller.transcripts.push` throw inside the
  socket's `close` handler. The model treats this as a save that changes nothing. The file
  outcome is the same, but the uncaught exception is not modelled.
- MemorySimple.MarkAnswered: a request without `questionId` is not modelled. The source has
  no 400 check. It pushes `undefined`, which the file stores as `null`, and writes the note
  under the key "undefined". Because `includes(undefined)` does not find the stored `null`,
  every repeat appends another `null`, so the no-duplicate property does not hold for that
  input.
- The vendor `averageDiscount` and `rating` are kept as text, not numbers.
- The `/health`, `/reload`, `/` and `GET /memory` endpoints only read or report state and are
  not modelled.
- The Hume configuration calls are not modelled: `updateHumePromptForCaller`'s
  `updateConfig`, and the prompt-injection server's temporary configuration create and
  delete calls. Deletion success is a parameter.
- Exceptions thrown by I/O inside `try` blocks are not modelled. The one exception the
  model does keep is `updateCallerProgress` on an unknown phone.

## Findings

| source | as written | input that shows it | evidently intended | confidence | as-written member | corrected member |
|---|---|---|---|---|---|---|
| server-with-memory.js:218-220 | a call over 60 seconds pushes `TIER1_QUESTIONS[questions_answered.length].id` without checking that the id is already answered | a fresh caller, Q2 marked by hand through `POST /mark-answered`, then a 90-second call: `questions_answered` becomes `["Q2", "Q2"]` | mark the first Tier 1 question that is not answered yet, so no id is stored twice | medium, not executed | Discovery.DurationAfterManualRepeats | Discovery.MarkFirstUnanswered (Discovery.FirstUnansweredSpec, Discovery.FirstUnansweredOnPath) |
| server-memory-final.js:161-163 | the same push by count, with no check that the id is already answered | Q2 marked by hand (server-memory-final.js:217-218), then a completed call over 60 seconds on a record holding only Q2: `questions_answered` becomes `["Q2", "Q2"]` | mark the first Tier 1 question that is not answered yet | medium, not executed | Discovery.DurationAfterManualRepeats | Discovery.MarkFirstUnanswered (Discovery.FirstUnansweredSpec, Discovery.FirstUnansweredOnPath) |
| server-memory-working.js:199-201 | the same push by count, with no check that the id is already answered | Q2 marked by hand (server-memory-working.js:245-246), then a completed call over 60 seconds on a record holding only Q2: `questions_answered` becomes `["Q2", "Q2"]` | mark the first Tier 1 question that is not answered yet | medium, not executed | Discovery.DurationAfterManualRepeats | Discovery.MarkFirstUnanswered (Discovery.FirstUnansweredSpec, Discovery.FirstUnansweredOnPath) |
| server-memory-simple.js:179-181 | the same push by count, with no check that the id is already answered | Q2 marked by hand (server-memory-simple.js:206-207), then a completed call over 60 seconds on a record holding only Q2: `questions_answered` becomes `["Q2", "Q2"]` | mark the first Tier 1 question that is not answered yet | medium, not executed | Discovery.DurationAfterManualRepeats | Discovery.MarkFirstUnanswered (Discovery.FirstUnansweredSpec, Discovery.FirstUnansweredOnPath) |

All four servers reach this push through `Discovery.CompleteCall`, so the
as-written lemma covers each of them. The server models keep the rule as
written, because they model the code; the intended rule is proved to agree with it on every record reached by the
duration rule alone, so the two differ only after a manual or keyword mark.
