# Cortex desktop backend: a verified model of its core

Cortex is a desktop assistant that reads the owner's chats, triages
messages with a remote reasoning service, keeps short interactive
"receptionist" sessions with senders, and slowly learns the owner's context
from the audit log and from rejected tasks. This project models the parts of
its Python backend that hold decision logic, and proves what they promise:

- **SessionStore** (`backend/auto_session_manager.py`) is a class over the
  in-memory table of interactive sessions. Sessions are created, probed for
  liveness with a strict inactivity timeout, appended to, rendered and closed.
  An invariant is kept throughout: the turn counter never exceeds the number
  of agent messages in the buffer, and falls short by at most the seeded reply.
- **MessageProcessor** (`backend/message_processor.py`) holds the
  auto-reply gate `should_reply`, the step-by-step assembly of the context
  handed to the gateway, and the normalisation of the gateway's answer.
- **Gateway** (`backend/agent.py`) models what surrounds the remote calls:
  - `analyze_message`: the bounded retry loop on rate-limit errors, the
    back-off waits and the shape normalisation;
  - the fail-safe defaults of every other operation;
  - the local shortcut of `deduplicate_facts`.
- **Learning** (`backend/learning_service.py`) is a class holding the two
  checkpoints `last_ts` and `last_feedback_ts`. It filters the audit log
  against the checkpoint, renders the batch, hands the facts and rules to
  the knowledge store, and stamps feedback runs. The knowledge store
  (`KnowledgeStore`) is a small class with the behaviour the service relies
  on; backend/memory_manager.py is not part of this model.
- **Server** (`backend/server.py`) covers two handlers: the allowed-keys
  merge of `POST /api/config` and the validation in
  `POST /api/priority/{task_id}`.
- **PyStr** and **Json** give Python's string and JSON-value behaviour
  explicitly:
  - string `<` is lexicographic by code point;
  - `in` is a substring test;
  - `lower()`, `strip()`, `join`, `[:n]` with negative `n`, and `int()` /
    `str()` follow Python;
  - truthiness, `len` and `dict.get` follow Python too.

The remote reasoning service is never called. Each call is given as its
outcome (`Remote<T>`), either the decoded reply or the text of the exception.
Where a source operation makes no call, a lemma states that the result is
the same for any outcome. The clock is an `int` parameter in microseconds,
the resolution of Python's `datetime`. The audit log, the rejected tasks, the
stored configuration and the task manager's answers are parameters too.

The model follows the code wherever code and documentation differ. Two
points where the code is the guide:
- The final return of `analyze_message` after its retry loop
  (backend/agent.py:88) can never be reached. The last attempt always
  returns, and `AnalyzeMessage` proves this with `assert false` after the
  loop.
- The feedback text cannot be empty once there is a rejected task, so the
  early return at backend/learning_service.py:123-124 is dead as well.
  `FeedbackTextEmpty` proves it.

## Model

| member | source | states |
|---|---|---|
| `SessionStore.AutoSessionManager.constructor` | backend/auto_session_manager.py:13-16 | the table starts empty, with the given timeout and turn limit (10 and 10 by default), and the turn invariant holds |
| `SessionStore.AutoSessionManager.StartSession` | backend/auto_session_manager.py:18-29 | the chat's entry is (re)created with both clocks at `now`, zero turns and the seeded buffer; every other chat is kept; the turn invariant is preserved |
| `SessionStore.AutoSessionManager.IsActive` | backend/auto_session_manager.py:33-52 | the answer is liveness (present and not silent for strictly longer than the timeout); the table becomes the probed table, in which only a timed-out chat is evicted |
| `SessionStore.AutoSessionManager.AddMessage` | backend/auto_session_manager.py:54-62 | the table becomes `AfterAdd`: a live chat gets the message appended, its clock set to `now` and a turn for an agent message; otherwise only the probe's eviction happens |
| `SessionStore.AutoSessionManager.GetHistory` | backend/auto_session_manager.py:64-72 | "" for an absent chat, otherwise the transcript: one `Me (Agent): c` or `User: c` line per buffer entry, in order |
| `SessionStore.AutoSessionManager.CloseSession` | backend/auto_session_manager.py:74-77 | the table loses exactly the given chat (no-op when absent) |
| `SessionStore.AutoSessionManager.GetBuffer` | backend/auto_session_manager.py:79-82 | the chat's buffer, or the empty list for an absent chat |
| `SessionStore.SeedAccounted` | backend/auto_session_manager.py:20-29 | a seeded buffer holds one agent message exactly when a reply is given, so seeding it counts no turn |
| `SessionStore.AppendedAccounted` | backend/auto_session_manager.py:58-62 | appending a message keeps the turn counter in step with the agent messages |
| `SessionStore.SeedShape` | backend/auto_session_manager.py:26-29 | the seeded buffer is the user message (if given) followed by the reply (if given) |
| `SessionStore.TimeoutBoundary` | backend/auto_session_manager.py:41-44 | at exactly the timeout the session is live and kept; one microsecond later it is reported inactive and evicted |
| `SessionStore.ProbeFacts` | backend/auto_session_manager.py:35-44 | a live chat is never past its timeout; an absent chat is inactive and the table is unchanged; other chats are untouched; live iff kept |
| `SessionStore.MaxTurnsKeepsSession` | backend/auto_session_manager.py:47-50 | reaching the turn limit before the timeout leaves the session live and the table unchanged |
| `SessionStore.ProbeIdempotent` | backend/auto_session_manager.py:33-52 | probing twice at the same instant answers the same and changes nothing more |
| `SessionStore.AddOnLiveChat` | backend/auto_session_manager.py:58-62 | exactly one entry is appended at the end, the clock becomes `now`, the start time is kept, turns grow by one iff the role is "agent", other chats are unchanged |
| `SessionStore.AddOnDeadChat` | backend/auto_session_manager.py:56 | on a chat that is not live, adding is the probe's eviction and nothing else |
| `SessionStore.TranscriptConcat` | backend/auto_session_manager.py:68-71 | rendering distributes over concatenation of buffers |
| `SessionStore.TranscriptOrder` | backend/auto_session_manager.py:68-72 | message k is rendered right after the rendering of the first k messages |
| `SessionStore.HistoryAfterAdd` | backend/auto_session_manager.py:54-72 | after adding to a live chat the history grows by exactly the new line |
| `SessionStore.CloseIdempotent` | backend/auto_session_manager.py:74-77 | closing twice is closing once, and other chats keep their entries |
| `MessageProcessor.ShouldReply` | backend/message_processor.py:16-37 | true exactly when all reply conditions hold (`Approves`); it raises exactly when `int(priority)` fails, `len` fails on a truthy reply, or a long non-string reply reaches `.lower()` |
| `MessageProcessor.NeverWhenSuppressed` | backend/message_processor.py:28-37 | auto-reply disabled, own message or working hours: never a reply |
| `MessageProcessor.NeverForWeakAnalyses` | backend/message_processor.py:24-32 | a missing or too short reply text, a missing priority (default 4) or a priority above 3: never a reply |
| `MessageProcessor.NeverForAcknowledgements` | backend/message_processor.py:34-35 | a lowercased reply containing "task added", or equal to "okay" once stripped: never a reply |
| `MessageProcessor.ActionRequiredIgnored` | backend/message_processor.py:26-37 | changing `action_required` never changes the decision |
| `MessageProcessor.HappyPathReplies` | backend/tests/test_message_processor.py:14-28 | "Sure, I will do that." at P2, enabled, outside working hours, not own: reply |
| `MessageProcessor.PoliteReplyText` | backend/message_processor.py:34-35 | that text neither contains "task added" nor strips to "okay" |
| `MessageProcessor.TestedRefusals` | backend/tests/test_message_processor.py:30-51 | the same kind of reply in working hours, and a P4 analysis: no reply |
| `MessageProcessor.BuildContext` | backend/message_processor.py:54-66 | the context built with `+=` is the recent-work section, then the preferences section (accepted, then rejected), then the memory section |
| `MessageProcessor.ContextOrder` | backend/message_processor.py:55-66 | with a knowledge store the context contains its text, ends with it, and begins with the recent-work section |
| `MessageProcessor.MemoryReachesGateway` | backend/tests/test_message_processor.py:53-70 | the store text "MemoryContext" is in the context, and the gateway's dict comes back unchanged |
| `MessageProcessor.NormalizeAnalysis` | backend/message_processor.py:72-74 | a dict is returned as is; anything else becomes the priority-4 "Analysis format error" record |
| `MessageProcessor.ProcessMessage` | backend/message_processor.py:39-76 | the context handed to the gateway is the assembled context, and the result is the normalised answer |
| `Gateway.NormalizeShape` | backend/agent.py:68-76 | always a dict: a dict as is, the first element of a non-empty list when that is a dict, otherwise "Invalid analysis format" |
| `Gateway.AttemptResult` | backend/agent.py:66-86 | an attempt that ends the loop always yields a dict |
| `Gateway.SettlingAttempt` | backend/agent.py:59-83 | the attempt that ends the loop is the first that is not a 429 error, or the third; every earlier one was a 429 error |
| `Gateway.AnalyzeMessage` | backend/agent.py:27-88 | without an API key: the "No API Key" record and no wait; otherwise the result of the settling attempt, at most two waits, wait k is 2^(k+1) after a 429 error; the result is always a dict |
| `Gateway.ExhaustedRetries` | backend/agent.py:79-86 | three 429 errors: waits of 2 and 4 seconds, then a priority-4 failure quoting the third error |
| `Gateway.FirstAttemptSettles` | backend/agent.py:59-76 | a first attempt that is not a 429 error is the only attempt |
| `Gateway.SummarizeDiscussions` | backend/agent.py:90-118 | empty buffer: the fixed "nothing to report" text; otherwise the reply text, or the failure text when the call failed |
| `Gateway.ListField` | backend/agent.py:155-159 | the key's value when the reply is a dict holding it, otherwise the empty list (failures included) |
| `Gateway.AnalyzeContextBatch` | backend/agent.py:119-159 | empty history: the empty list; otherwise the reply's "facts" field with the empty-list fallback |
| `Gateway.AnalyzeFeedbackBatch` | backend/agent.py:161-198 | empty feedback: the empty list; otherwise the reply's "rules" field with the empty-list fallback |
| `Gateway.EmptyInputNeedsNoCall` | backend/agent.py:94 | for empty input the three operations give their fixed answers whatever the remote outcome |
| `Gateway.BatchFailuresGiveNothing` | backend/agent.py:155-159 | a failed call, a non-dict reply or a missing key gives the empty list, never an exception |
| `Gateway.InsertSorted` | backend/agent.py:207-208 | inserting into a strictly sorted list keeps it strictly sorted and adds exactly the new element |
| `Gateway.SortedDistinct` | backend/agent.py:207-208 | `sorted(list(set(facts)))` is strictly sorted and has exactly the facts' elements |
| `Gateway.StrictlySortedUnique` | backend/agent.py:207-208 | two strictly sorted lists with the same elements are equal, so the shortcut's result is unique |
| `Gateway.DeduplicateFacts` | backend/agent.py:200-244 | [] for no facts; the sorted distinct facts below five; otherwise "consolidated_facts" (or []) from a dict reply, and the original facts on failure |
| `Gateway.DeduplicateShortcut` | backend/agent.py:204-208 | below five facts the result ignores the remote outcome and is sorted, duplicate-free and loses no fact |
| `Gateway.HandleSessionTurn` | backend/agent.py:279-292 | the decoded reply, or on failure a record with status "FINISH" |
| `Gateway.SummarizeSession` | backend/agent.py:313-323 | the decoded reply, or on failure a record with priority 3 |
| `Learning.Inserted` | backend/learning_service.py:81-84 | adding facts in turn keeps the old memories as a prefix, stores every fact, and brings in nothing else |
| `Learning.NewCount` | backend/learning_service.py:80-84 | the count of facts the store reported new is at most the number of facts and is exactly how much the store grew |
| `Learning.InsertedDistinct` | backend/learning_service.py:81-84 | a store without duplicates stays without duplicates |
| `Learning.InsertKnown` | backend/learning_service.py:131-134 | facts already stored change nothing and count zero: they are not errors |
| `Learning.InsertTwice` | backend/learning_service.py:109-114 | processing the same facts or rules twice adds nothing the second time |
| `Learning.KnowledgeStore.constructor` | backend/learning_service.py:12 | a store starts empty with no consolidation run |
| `Learning.KnowledgeStore.AddMemory` | backend/learning_service.py:83 | answers true exactly when the fact is new, and then appends it |
| `Learning.KnowledgeStore.ConsolidateMemories` | backend/learning_service.py:143 | records one consolidation run; the memories it leaves are unconstrained, since the consolidation itself is computed outside this model |
| `Learning.NewerThan` | backend/learning_service.py:58-60 | exactly the entries whose timestamp is strictly greater, and empty iff there is none |
| `Learning.NewerThanHead` | backend/learning_service.py:68 | the head of the filtered list is the first newer entry of the log |
| `Learning.Items` | backend/learning_service.py:81-82 | a falsy value visits nothing; a list visits its items, a string its characters one by one; a truthy number or `True` raises TypeError, and nothing else raises |
| `Learning.Chars` | backend/learning_service.py:82 | iterating a string gives one one-character string per code point, in order |
| `Learning.FirstRunBatch` | backend/learning_service.py:55-71 | without a checkpoint the batch is the first `batch_size` fetched entries |
| `Learning.CheckpointBatch` | backend/learning_service.py:57-71 | with a checkpoint the batch is the newer entries in log order, capped at `batch_size` |
| `Learning.NothingNewKeepsCheckpoint` | backend/learning_service.py:63-65 | no entry newer than the checkpoint: nothing is selected and the checkpoint stays |
| `Learning.CheckpointMonotone` | backend/learning_service.py:59-89 | a checkpoint that moves moves strictly forward |
| `Learning.NoneNewerThanHead` | backend/learning_service.py:58-68 | in a newest-first log no entry is newer than the first entry newer than the checkpoint |
| `Learning.SecondRunSelectsNothing` | backend/learning_service.py:49-89 | digesting the same newest-first log after a run selects nothing: the second run is a no-op |
| `Learning.FeedbackTextEmpty` | backend/learning_service.py:117-124 | the feedback text is empty iff there are no tasks |
| `Learning.FeedbackTextConcat` | backend/learning_service.py:117-121 | the feedback text of a concatenation is the concatenation of feedback texts |
| `Learning.LearningService.constructor` | backend/learning_service.py:10-20 | no checkpoint and no feedback stamp, with the given store |
| `Learning.LearningService.SelectBatch` | backend/learning_service.py:53-60 | the filtering loop computes `Selected`: the first `batch_size` entries without a checkpoint, else the newer entries |
| `Learning.LearningService.Remember` | backend/learning_service.py:80-84 | the store ends as `Inserted` of the facts and the count is `NewCount` |
| `Learning.LearningService.DigestContext` | backend/learning_service.py:42-90 | nothing selected: no call, nothing stored, checkpoint kept; otherwise the gateway sees the history text of the capped batch; facts that cannot be iterated raise TypeError with store and checkpoint unchanged; else they are stored and counted and the checkpoint becomes the newest selected entry (`Advanced`) |
| `Learning.LearningService.DigestContextAsWritten` | backend/learning_service.py:42-77 | as written: whenever something is selected the call raises TypeError, and the checkpoint and store are unchanged |
| `Learning.LearningService.LearnFromFeedback` | backend/learning_service.py:92-143 | no tasks: nothing changes; otherwise every task is counted; rules that cannot be iterated raise TypeError before the stamp and consolidation; else the rules for the rendered text are stored and counted (the store just before consolidation is `Inserted`), the stamp is set to the given time and one consolidation runs |
| `Learning.FirstRunCounterexample` | backend/learning_service.py:55-89 | on a one-entry log the whole log is selected (so the code as written raises and keeps no checkpoint), while the corrected run moves the checkpoint so that the next run selects nothing |
| `Server.UpdateConfig` | backend/server.py:228-258 | the saved configuration is the merge of the stored one (or of {} without a file) over the allowed keys; a stored non-dict fails with the TypeError text only when the request carries an allowed key |
| `Server.MergeStep` | backend/server.py:247-249 | one overwritten allowed key is one map update |
| `Server.MergeSkip` | backend/server.py:247-249 | an allowed key the request lacks changes nothing |
| `Server.MergeChangesOnlyAllowed` | backend/server.py:238-249 | allowed keys in the request take its values; every other key keeps its stored value or stays absent |
| `Server.MergeIdempotent` | backend/server.py:247-249 | applying the same request twice gives what applying it once gave |
| `Server.MergeFromNothing` | backend/server.py:232-249 | without a stored file the result is exactly the allowed keys of the request |
| `Server.UpdatePriority` | backend/server.py:121-134 | no task manager: 500; a missing or null priority: 400 and no call; otherwise the manager is called, and 200 with the task and priority iff it succeeded |
| `PyStr.LessIrreflexive` | backend/learning_service.py:59 | no timestamp is newer than itself |
| `PyStr.LessAsymmetric` | backend/learning_service.py:59 | string order is asymmetric |
| `PyStr.LessTransitive` | backend/learning_service.py:59 | string order is transitive |
| `PyStr.LessTotal` | backend/agent.py:208 | any two strings are equal or ordered |
| `PyStr.ContainsAt` | backend/message_processor.py:34 | a needle occurring at any offset is found by `in` |
| `PyStr.NotContainsMissingChar` | backend/message_processor.py:34 | a needle with a character the text lacks is not in it |
| `PyStr.Lower` | backend/message_processor.py:34 | same length, each code point lowercased |
| `PyStr.StripLeft` | backend/message_processor.py:35 | removes exactly the leading whitespace |
| `PyStr.StripRight` | backend/message_processor.py:35 | removes exactly the trailing whitespace |
| `PyStr.StripNoSpace` | backend/message_processor.py:35 | a string without surrounding whitespace strips to itself |
| `PyStr.Join` | backend/message_processor.py:57 | joining a single part gives that part |
| `PyStr.Take` | backend/learning_service.py:56 | `s[:n]` is a prefix of length `min(n, len)`, or `len + n` (at least 0) for negative `n` |
| `PyStr.NatToString` | backend/message_processor.py:61 | the decimal text of a natural is a non-empty run of digits |
| `PyStr.DigitsOfNat` | backend/message_processor.py:61 | the digits of a natural read back as that natural |
| `PyStr.ParseIntRoundTrip` | backend/message_processor.py:25 | `int(str(i)) == i` |
| `Json.Get` | backend/message_processor.py:24-26 | the stored value for a present key, the default otherwise |
| `Json.Len` | backend/message_processor.py:31 | defined exactly for strings, lists and dicts |
| `Json.IntOf` | backend/message_processor.py:25 | an int is itself; None, lists and dicts raise |
| `Json.Strings` | backend/agent.py:208 | a list of strings, element by element |

## Left out

- The remote reasoning client, prompt wording and the prompt-template load with its fallback (backend/agent.py:36-53): each remote call is an outcome parameter.
- `asyncio.sleep`, `datetime.now()` and the learning scheduler loop with its cancellation and error back-off (backend/learning_service.py:145-162): timing and concurrency. Waits are returned as data; the clock and the ISO time are parameters.
- Loading and saving the learning state (backend/learning_service.py:22-40) and the configuration file read and write: disk I/O. The checkpoints are fields, and the stored configuration is a decoded parameter. A file that fails to decode is not modelled.
- The other HTTP routes of backend/server.py, the process wiring, the UI and the login helper: I/O and thin wrappers.
- backend/memory_manager.py is not part of this model. Its store is the `KnowledgeStore` class, with exact-value deduplication.
- `Learning.KnowledgeStore.ConsolidateMemories`: what consolidation puts in the store is computed by that missing file, so the memories after it are unconstrained; only the run is recorded. `LearnFromFeedback` states the store's contents just before it.
- The audit-log and rejected-task fetches with their limits of 1000 and 50: their results are parameters.
- `sender` and `text` of the incoming message only feed the prompt, so `ProcessMessage` leaves them out.
- `PyStr.Lower`: only ASCII letters are folded. Python's Unicode case mapping, including characters whose lowercase is longer, is not modelled.
- `PyStr.StripLeft`: only the ASCII whitespace code points, so Unicode spaces such as U+00A0 are not stripped.
- `PyStr.StripRight`: the same ASCII-only whitespace as `StripLeft`, so trailing Unicode spaces are kept.
- `PyStr.Strip`: built from the two above, with the same ASCII-only gap.
- `PyStr.ParseInt`: it accepts ASCII digits only, without underscores or other Unicode digits.
- `Json.IntOf`: JSON floats do not exist in this model, so `int(2.5)` is not covered.
- `Server.UpdateConfig`: linked to the saved map by value. The insertion order of dict keys, and so the key order in the written file, is not modelled.
- `SessionStore.AutoSessionManager.GetBuffer`: returns a copy. The Python list it returns aliases the session's buffer, so a caller's changes would show up in the session; that aliasing is not modelled.
- `Learning.Items`: a truthy dict visits nothing here. Python visits its keys in insertion order, which the model's maps do not record.
- `Learning.LearningService.DigestContext`: a truthy dict of `facts` stores nothing, as `Items` gives it.
- `Learning.LearningService.LearnFromFeedback`: a truthy dict of `rules` stores nothing, as `Items` gives it.
- `Learning.LearningService.LearnFromFeedback`: it states that the stamp is set and that one consolidation runs, but not their relative order.
- `SessionStore.AutoSessionManager.StartSession` and `SessionStore.AutoSessionManager.AddMessage`: one `now` stands for the two `datetime.now()` readings of each source method (lines 21-22, and lines 41 and 59), so the two are assumed equal.
- `Gateway.AnalyzeMessage`: requires an outcome for each of the three possible attempts. Unused outcomes do not matter; an absent client is an attempt outcome `Err`.

## Findings

| source | as written | input that shows it | evidently intended | confidence | as-written member | corrected member |
|---|---|---|---|---|---|---|
| backend/learning_service.py:77 | `digest_context` calls `analyze_context_batch(history_text)` with one argument, but the method at backend/agent.py:119 requires `user_name` as well. The call raises TypeError before `last_ts` is written at line 89, so the checkpoint never advances, every later run raises on the same batch, and the scheduler's error branch skips `learn_from_feedback` in those cycles | a first run on a one-entry log, e.g. `[("2024-05-01T10:00:00", "Me", "Works on v2 project")]`, with no checkpoint | pass the owner's name, so that the facts are stored and the checkpoint moves to the newest selected entry | high; derived from the code, not executed | `Learning.LearningService.DigestContextAsWritten`, `Learning.FirstRunCounterexample` | `Learning.LearningService.DigestContext`, `Learning.SecondRunSelectsNothing` |
