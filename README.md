# Email watcher with memory: a Dafny model

This project models the core of an email assistant. The assistant watches a
Gmail inbox for Nintendo Switch 2 announcements. It keeps a vector memory of
what it has seen. It asks a language-model agent to assess purchase emails,
and it alerts the user through configurable channels. The model covers these
parts:

- **The memory store** (`ChromaMemory`). The vector collection is a sequence
  of records (id, document, metadata), held by the class `MemoryManager`.
  - Adding a memory assembles metadata.
  - Searching applies the distance cutoff, strips the reserved keys and
    defaults the importance.
  - Lookup by id, deletion and lookup by kind are modelled.
  - The per-kind statistics histogram is modelled.
  - The bulk clear and its report are modelled.
- **The memory-aware agent** (`MemoryAgent`). The agent recalls memories at
  threshold 0.3 and formats them. It calls an abstract completion. It then
  writes back two records, the goal and then the response. The typed
  adders store observations, learnings and reflections with their default
  importances.
- **The memory kinds** (`MemoryTypes`). These are the six-value enum with its
  string round trip, the entry record and the query record with their
  defaults.
- **The scheduler's job registry** (`Scheduler`). This is the `jobs` map and
  the running flag, held by the class `SchedulerService`. It covers add or
  replace, remove, pause, resume, the status counts and the run-count
  bookkeeping of a job execution.
- **The Switch 2 email watcher** (`NintendoMonitor`), held by the class
  `Monitor`:
  - building the Gmail query;
  - matching keywords by case-insensitive substring;
  - the three-way verdict;
  - skipping emails already recorded in memory;
  - routing alerts to channels;
  - the memories each analysis writes;
  - the loop over one check's emails.
- **Notification routing** (`Notifications`). It selects the available
  channels in a fixed order. It builds the result map of a send, with the
  per-channel success predicates.
- **Gmail decoding** (`Gmail`). It picks the body from MIME parts, builds
  the header map and label flags, and lists messages with failed fetches
  dropped and an undecodable body raising. It also covers the query builders and the SMS carrier check.
  `SmsGateways` holds the carrier table. The notification service and the
  Gmail service each carry an identical copy of it, and the model keeps it
  once.
- `Text` holds the string helpers the source gets from Python:
  - ASCII lower-casing;
  - substring search;
  - `join`;
  - whitespace `split`;
  - integer printing and parsing;
  - `%Y/%m/%d` dates.

  `Wrappers` holds `Option`, `Result` and `Outcome`.

Every SDK is an abstract parameter or field of the model:

| SDK or effect | modelled as |
|---|---|
| OpenAI embeddings and Chroma nearest-neighbour search | `Ranker` |
| the LLM chain | `Completion`, which may fail (`None`) |
| `uuid4()` | an injective `nat -> string` with a draw counter |
| whether each request to the vector server is answered | `reachable: nat -> bool`, indexed by the store's running request counter |
| the clock | a `now` / `yesterday` parameter |
| the Gmail API | `GmailApi` |
| base64, reply stripping and date parsing | `Codecs`; body decoding may fail (`None`), which raises |
| HTTP replies of the push services | `Replies` |
| the file and webhook alert sinks | `Delivery` |
| APScheduler's acceptance of a trigger | `Acceptance` |
| whether APScheduler's `remove_job`, `pause_job` or `resume_job` raises | `raises: nat -> bool`, indexed by the service's count of such calls |

An exception that the source lets propagate is an `Err`/`Fail` value, and a
caught one is the value the `except` branch returns.

## Model

| member | source | states |
|---|---|---|
| MemoryTypes.Value | autonomous_agent_starter/memory/memory_types.py:7-14 | every kind's value is a non-empty lower-case string |
| MemoryTypes.Parse | autonomous_agent_starter/memory/memory_types.py:7-14 | `MemoryType(s)` yields a kind whose value is `s`, and rejects a string that is no kind's value |
| MemoryTypes.KindsAndValues | autonomous_agent_starter/memory/memory_types.py:7-14 | there are exactly six kinds, listed once each; distinct kinds have distinct values; parsing a kind's value gives the kind back |
| MemoryTypes.NewEntry | autonomous_agent_starter/memory/memory_types.py:17-25 | an entry holds the four required fields as given; metadata, embedding and importance default to None |
| MemoryTypes.NewQuery | autonomous_agent_starter/memory/memory_types.py:31-37 | a query defaults to limit 10, threshold 0.7, no kind filter and no time filter, the same defaults as `search_memories` |
| ChromaMemory.StoredImportance | email_reader/memory/chroma_memory.py:55 | `importance_score or 0.5`: None and 0.0 are both stored as 0.5, and any other score is stored unchanged |
| ChromaMemory.AssembledKeys | email_reader/memory/chroma_memory.py:52-59 | stored keys are the three reserved keys plus the caller's keys; on a clash the caller's value wins; otherwise the reserved keys hold the kind's value, the timestamp and the stored importance |
| ChromaMemory.StripReserved | email_reader/memory/chroma_memory.py:111-112 | the returned metadata is the stored metadata without `memory_type`, `timestamp` and `importance_score`, values unchanged |
| ChromaMemory.ToEntry | email_reader/memory/chroma_memory.py:106-114 | reading a record back succeeds when its kind parses, its timestamp is a string and any importance is a number or a boolean; otherwise it raises for that record (see "Left out" for the timestamp format and string coercion) |
| ChromaMemory.ReadBack | email_reader/memory/chroma_memory.py:106-114 | a readable record reads back with its id, text, kind and timestamp, no reserved key in its metadata and no embedding; importance is 0.5 when none is stored and 1.0/0.0 for a stored boolean |
| ChromaMemory.StoredRecordReadsBack | email_reader/memory/chroma_memory.py:45-69 | a record written by `add_memory` with non-reserved caller metadata reads back as the same content, kind, timestamp, metadata and stored importance |
| ChromaMemory.EntriesSpec | email_reader/memory/chroma_memory.py:101-117 | converting records succeeds exactly when each one converts, giving one entry per record in order; otherwise it reports the first failing record |
| ChromaMemory.QualifyingSpec | email_reader/memory/chroma_memory.py:104 | a hit survives exactly when its distance is at most `1 - threshold` |
| ChromaMemory.QualifyingAppend | email_reader/memory/chroma_memory.py:103-115 | the cutoff keeps backend order: it distributes over concatenation |
| ChromaMemory.QualifyingNested | email_reader/memory/chroma_memory.py:104 | the cutoff at a higher threshold equals the cutoff applied to the lower threshold's survivors |
| ChromaMemory.SearchStopsAt | email_reader/memory/chroma_memory.py:103-115 | an unreadable record among the qualifying hits makes the whole search raise with that record's error |
| ChromaMemory.SearchResultSound | email_reader/memory/chroma_memory.py:94-117 | when the backend returns at most `limit` hits of stored records of the filtered kind, search returns at most `limit` entries. Each entry comes from such a hit within the cutoff, has the filtered kind, and has no reserved key in its metadata |
| ChromaMemory.ThresholdMonotone | email_reader/memory/chroma_memory.py:104 | raising the threshold never adds results and never introduces an error; every result at the higher threshold is a result at the lower |
| ChromaMemory.EntriesSubset | email_reader/memory/chroma_memory.py:101-117 | reading a subset of stored records back never fails where reading the superset succeeded, and gives a subset of its entries |
| ChromaMemory.OfKind | email_reader/memory/chroma_memory.py:147-150 | the `where` filter keeps exactly the records whose stored kind is the requested one |
| ChromaMemory.ByKindSound | email_reader/memory/chroma_memory.py:145-166 | `get_memories_by_type` returns at most `limit` entries, all of the requested kind |
| ChromaMemory.HistogramTotal | email_reader/memory/chroma_memory.py:174-181 | the per-kind counts add up to the number of records fetched |
| ChromaMemory.ClearOutcomeSound | email_reader/memory/chroma_memory.py:229-271 | a clear deletes what it found (at most 10000). It succeeds exactly when nothing remains, which is exactly when the collection fitted in one page. An empty collection succeeds with all counts zero |
| ChromaMemory.ClearSound | email_reader/memory/chroma_memory.py:223-280 | with each of the three requests (read, delete, count) answered or not: success exactly when the read is answered and the collection was empty, or the delete and count are answered and it fitted in one page; success leaves nothing; a count that fails after the delete reports failure although records are already gone |
| ChromaMemory.WithoutIds | email_reader/memory/chroma_memory.py:140 | deleting ids keeps exactly the records whose id is not deleted, and never adds records |
| ChromaMemory.DeletePage | email_reader/memory/chroma_memory.py:229-235 | with distinct ids, deleting the ids of the first page leaves exactly the records after it |
| ChromaMemory.FindById | email_reader/memory/chroma_memory.py:122-123 | a found record is stored under that id; None means no record has the id |
| ChromaMemory.AddOutcome | email_reader/memory/chroma_memory.py:45-69 | `add_memory` succeeds exactly when the metadata is storable and both of its requests are answered; it fails with the metadata error exactly when the store is reached and refuses the metadata |
| ChromaMemory.AddSpec | email_reader/memory/chroma_memory.py:30-69 | one id is drawn and two requests are counted; exactly the new record with that id and the assembled metadata is appended and its id returned when the metadata is storable and both requests are answered; otherwise nothing is appended and the error is the metadata error or an unreachable store |
| ChromaMemory.MemoryManager.constructor | email_reader/memory/chroma_memory.py:14-28 | a manager starts over the given collection with distinct ids and no id drawn yet |
| ChromaMemory.MemoryManager.AddMemory | email_reader/memory/chroma_memory.py:30-69 | the drawn id is fresh and distinct ids are kept; result and new collection are those `AddSpec` describes |
| ChromaMemory.MemoryManager.SearchMemories | email_reader/memory/chroma_memory.py:71-117 | when both requests are answered the result is that of the loop over the backend's hits: the converted entries of the hits within the cutoff, in order, or the first conversion error; otherwise it raises |
| ChromaMemory.MemoryManager.GetMemoryById | email_reader/memory/chroma_memory.py:119-135 | an entry is returned only for a stored record with that id that reads back; None when the request is unanswered, the id is unknown or the record cannot be read |
| ChromaMemory.MemoryManager.DeleteMemory | email_reader/memory/chroma_memory.py:137-143 | when the request is answered the id is gone, every other record stays and True is returned; otherwise nothing changes and False is returned |
| ChromaMemory.MemoryManager.GetMemoriesByType | email_reader/memory/chroma_memory.py:145-166 | when the request is answered, the converted first `limit` records of the kind, or the first conversion error; otherwise it raises |
| ChromaMemory.MemoryManager.GetMemoryStats | email_reader/memory/chroma_memory.py:168-189 | the total is the record count and the histogram is that of the first 10000 records; a record without a kind, or an unanswered request, gives the error map |
| ChromaMemory.MemoryManager.ClearAllMemoriesDetailed | email_reader/memory/chroma_memory.py:223-280 | deletes the first page of ids when the read and the delete are answered, and reports what `ClearSound` describes: a successful report means the collection is empty, and a failed count after the delete reports failure with the page already deleted |
| ChromaMemory.MemoryManager.ClearAllMemories | email_reader/memory/chroma_memory.py:191-221 | the same clear; True exactly when the read is answered and the collection was empty, or the delete and count are answered and it fitted in one page; then the collection is empty |
| MemoryAgent.FormatMemories | email_reader/agents/memory_agent.py:86-98 | the result is the sentinel "No relevant memories found." exactly when there are no memories |
| MemoryAgent.FormatMemoriesAppend | email_reader/agents/memory_agent.py:91-98 | each further memory adds exactly its own `- [kind] content (Importance: x)` line after a newline, so lines follow input order |
| MemoryAgent.FormatSingleMemory | email_reader/agents/memory_agent.py:91-98 | one memory is formatted as its own line alone |
| MemoryAgent.InteractionReadsBack | email_reader/agents/memory_agent.py:100-114 | the goal record (metadata `{context}`) and the action record (metadata `{goal, context}`) are both storable and read back as a GOAL and an ACTION with importance 0.5 |
| MemoryAgent.InteractLanded | email_reader/agents/memory_agent.py:100-114 | writes the goal record and then the action record, each with a fresh id; exactly the writes before the first unanswered one land; the call passes exactly when both land and otherwise raises an unreachable-store error |
| MemoryAgent.ExchangeLanded | email_reader/agents/memory_agent.py:45-76 | an unanswered recall raises and a failed completion reports `CompletionFailed`, both with nothing written. Otherwise the completion's response is returned unchanged when both interaction writes land; a write that goes unanswered raises after the writes before it |
| MemoryAgent.ExchangeAnswered | email_reader/agents/memory_agent.py:45-76 | when recall and both writes are answered and the completion answers, the response is returned after exactly the goal and action records are appended |
| MemoryAgent.ExchangeAppends | email_reader/agents/memory_agent.py:45-76 | running the agent never removes or changes an existing record |
| MemoryAgent.NoteSpec | email_reader/agents/memory_agent.py:116-144 | an observation, learning or reflection is appended, with the given kind, text, score and metadata and a fresh id, exactly when its metadata is storable and both requests are answered; the metadata error is reported exactly when the store is reached and refuses it |
| MemoryAgent.MemoryAwareAgent.constructor | email_reader/agents/memory_agent.py:15-43 | the agent wraps the given store |
| MemoryAgent.MemoryAwareAgent.GetRelevantMemories | email_reader/agents/memory_agent.py:78-84 | recall is a store search with no kind filter at threshold 0.3 |
| MemoryAgent.MemoryAwareAgent.SearchMemories | email_reader/agents/memory_agent.py:150-157 | query, kind and limit are passed through at the store's default threshold 0.7 |
| MemoryAgent.MemoryAwareAgent.StoreInteraction | email_reader/agents/memory_agent.py:100-114 | the new collection and result are those of `InteractLanded` |
| MemoryAgent.MemoryAwareAgent.RunAgent | email_reader/agents/memory_agent.py:45-76 | recall at threshold 0.3 with the given limit; the new collection and result are those of `ExchangeLanded` |
| MemoryAgent.MemoryAwareAgent.AddObservation | email_reader/agents/memory_agent.py:116-124 | stores an OBSERVATION as `NoteSpec` describes, with importance 0.5 by default; an error raises, and no id is returned |
| MemoryAgent.MemoryAwareAgent.AddLearning | email_reader/agents/memory_agent.py:126-134 | stores a LEARNING as `NoteSpec` describes, with importance 0.8 by default |
| MemoryAgent.MemoryAwareAgent.AddReflection | email_reader/agents/memory_agent.py:136-144 | stores a REFLECTION as `NoteSpec` describes, with importance 0.7 by default |
| Scheduler.NewJob | email_reader/services/scheduler_service.py:24-36 | a new job is enabled, has never run and has no next run |
| Scheduler.ParseTrigger | email_reader/services/scheduler_service.py:92-110 | a trigger exists exactly for `interval` with a value Python's `int()` accepts (optional surrounding whitespace other than the separators U+001C..U+001F, an optional sign, decimal digits of any script, single underscores between digits, at most 4300 digits) or `cron` with exactly five fields separated by whitespace, which become the trigger's fields in order |
| Scheduler.ActionFor | email_reader/services/scheduler_service.py:223-231 | the monitor runs exactly for the `nintendo_monitor` endpoint with a monitor present; any other endpoint is unknown |
| Scheduler.SetEnabled | email_reader/services/scheduler_service.py:150-153 | only the named job's `enabled` changes; every other job, and the set of ids, is unchanged |
| Scheduler.StatusOf | email_reader/services/scheduler_service.py:200-207 | active plus paused equals total equals the number of jobs |
| Scheduler.PauseThenResume | email_reader/services/scheduler_service.py:147-177 | pausing an enabled job moves exactly one job from active to paused, and resuming it restores the registry exactly |
| Scheduler.Bumped | email_reader/services/scheduler_service.py:220-221 | a run adds exactly one to the run count, records the run time and changes no other field |
| Scheduler.MonitorJobParses | email_reader/services/scheduler_service.py:236-248 | the convenience interval job's `str(minutes)` parses back to an interval of those minutes whenever the minutes have at most 4300 digits, and to no trigger otherwise |
| Scheduler.DefaultCronParses | email_reader/services/scheduler_service.py:250 | the default cron expression `*/15 * * * *` is a valid five-field cron trigger |
| Scheduler.SchedulerService.constructor | email_reader/services/scheduler_service.py:41-65 | a service starts stopped with no jobs |
| Scheduler.SchedulerService.StartScheduler | email_reader/services/scheduler_service.py:67-74 | afterwards the scheduler is running, whether or not it was before |
| Scheduler.SchedulerService.StopScheduler | email_reader/services/scheduler_service.py:76-83 | afterwards the scheduler is stopped, whether or not it was before |
| Scheduler.SchedulerService.AddJob | email_reader/services/scheduler_service.py:85-129 | success exactly when the trigger parses and is accepted; then `jobs[id]` is the new config and the rest is unchanged; on failure an earlier job with that id is gone, unless the scheduler's removal of it raised, in which case nothing changed |
| Scheduler.SchedulerService.RemoveJob | email_reader/services/scheduler_service.py:131-145 | True exactly for a known id whose removal by the scheduler does not raise; then that id is gone and nothing else changed; on False the registry is unchanged |
| Scheduler.SchedulerService.PauseJob | email_reader/services/scheduler_service.py:147-161 | True exactly for a known id whose pause by the scheduler does not raise; then that job is disabled; on False the registry is unchanged |
| Scheduler.SchedulerService.ResumeJob | email_reader/services/scheduler_service.py:163-177 | True exactly for a known id whose resume by the scheduler does not raise; then that job is enabled; on False the registry is unchanged |
| Scheduler.SchedulerService.GetSchedulerStatus | email_reader/services/scheduler_service.py:200-207 | reports the running flag and active plus paused equal to total equal to the number of jobs |
| Scheduler.SchedulerService.ExecuteJob | email_reader/services/scheduler_service.py:209-234 | an unknown id changes nothing; a known job's run count goes up by exactly one with its last run set, and the endpoint decides the action |
| Scheduler.SchedulerService.AddNintendoMonitorJob | email_reader/services/scheduler_service.py:236-248 | raises, with nothing changed, exactly when `str(interval_minutes)` exceeds the 4300-digit limit (outside `add_job`'s `try`); otherwise adds the interval monitor job under id `nintendo_monitor` exactly when the trigger is accepted, and on refusal an earlier monitor job is gone unless its removal raised |
| Scheduler.SchedulerService.AddNintendoMonitorCron | email_reader/services/scheduler_service.py:250-262 | adds the cron monitor job under id `nintendo_monitor_cron` exactly when the expression parses and is accepted; otherwise an earlier cron job is gone unless its removal raised |
| Gmail.FirstPlainSpec | email_reader/services/gmail_service.py:197-201 | the plain body is the data of the first `text/plain` part with data, and absent exactly when there is none |
| Gmail.HtmlBodySpec | email_reader/services/gmail_service.py:202-204 | without a plain part, the body is the decoded data of the first `text/html` part that decodes to non-empty text, else "" |
| Gmail.ScanDecodes | email_reader/services/gmail_service.py:195-204 | when every plain or HTML part with data decodes, the loop stops at the first plain part with data, and otherwise ends with the HTML body |
| Gmail.ScanStops | email_reader/services/gmail_service.py:197-201 | once the loop has stopped (at a plain part, or at a part that does not decode), later parts do not matter |
| Gmail.MessageBodySpec | email_reader/services/gmail_service.py:191-214 | when every part decodes, the body is the first plain part's text if there is one, else the HTML body; a body that raises comes from a plain or HTML part with data that does not decode |
| Gmail.ExtractMessageBody | email_reader/services/gmail_service.py:191-214 | the loop with its `break` computes `MessageBody`: the plain part wins over HTML; a single part is decoded only for plain or HTML with data; a part that does not decode raises |
| Gmail.HeaderMapSpec | email_reader/services/gmail_service.py:154-155 | a name is in the header map exactly when some header has it, and the map holds the last such header's value ("" when absent) |
| Gmail.LastValueSpec | email_reader/services/gmail_service.py:155 | the value kept for a name is that of its last occurrence |
| Gmail.DetailSpec | email_reader/services/gmail_service.py:153-185 | subject, from, to, cc and bcc are their headers' last values or "". The date is present exactly with a non-empty Date header. `is_unread` and `is_important` hold exactly when the labels contain UNREAD or IMPORTANT, and missing labels mean none |
| Gmail.DetailsAppend | email_reader/services/gmail_service.py:126-129 | dropping failed fetches is per id and keeps listing order |
| Gmail.DetailsErr | email_reader/services/gmail_service.py:126-131 | the listing raises exactly when some message's body does not decode, and then with the error of the first such message, every earlier one having been fetched |
| Gmail.GetMessages | email_reader/services/gmail_service.py:103-135 | the loop returns the details of the listed ids whose fetch succeeded, in order, [] when listing fails, and raises at the first message whose body does not decode |
| Gmail.DateRangeRoundTrip | email_reader/services/gmail_service.py:228-234 | `after:Y/M/D before:Y/M/D` parses back to the two dates given |
| Gmail.GetUnreadMessages | email_reader/services/gmail_service.py:216-218 | lists with the unread query |
| Gmail.GetMessagesFromSender | email_reader/services/gmail_service.py:220-222 | lists with the sender query |
| Gmail.GetMessagesBySubject | email_reader/services/gmail_service.py:224-226 | lists with the subject query |
| Gmail.GetMessagesInDateRange | email_reader/services/gmail_service.py:228-234 | lists with the date-range query |
| Gmail.SendSmsNotification | email_reader/services/gmail_service.py:295-346 | an unsupported carrier (case-insensitively) stops before any API call. Otherwise the message goes to the gateway address, and the result is whether the send went through |
| SmsGateways.GatewayAddress | email_reader/services/notification_service.py:281-294 | an address exists exactly for a carrier the table knows after lower-casing, and is the phone number followed by a gateway suffix |
| SmsGateways.GatewayCaseInsensitive | email_reader/services/notification_service.py:62-71 | every carrier key is lower case, so carriers differing only in case get the same answer, and each listed carrier gets its own suffix |
| Notifications.ValueInjective | email_reader/services/notification_service.py:22-28 | the six channel values are pairwise distinct |
| Notifications.AvailableMethodsSpec | email_reader/services/notification_service.py:146-170 | a channel is available exactly when all its config fields are non-empty (SMS over Gmail also needs a Gmail service), and the list follows the fixed order TWILIO, GMAIL, PUSHBULLET, PUSHOVER, DISCORD, SLACK |
| Notifications.Succeeded | email_reader/services/notification_service.py:172-277 | a raised send is a failure; Pushbullet, Pushover and Slack succeed exactly on status 200 and Discord exactly on 204 |
| Notifications.GmailSms | email_reader/services/notification_service.py:191-206 | SMS over Gmail can succeed only with a Gmail service and a known carrier |
| Notifications.ResultsKeys | email_reader/services/notification_service.py:121-144 | the result map has exactly one key per distinct requested channel value |
| Notifications.ResultsHasChannel | email_reader/services/notification_service.py:121-144 | a channel's value is a key of the results exactly when that channel was requested |
| Notifications.ResultsLast | email_reader/services/notification_service.py:123-142 | a channel requested several times reports the outcome of its last send |
| Notifications.DefaultSendsAvailable | email_reader/services/notification_service.py:118-119 | with no methods given, the results cover exactly the configured channels |
| Notifications.SendNotification | email_reader/services/notification_service.py:105-144 | the loop builds the result map of the requested (or, by default, available) channels |
| NintendoMonitor.NewAlertConfig | email_reader/services/nintendo_monitor.py:20-25 | a new alert configuration is enabled |
| NintendoMonitor.SenderTerms | email_reader/services/nintendo_monitor.py:105 | one `from:` term per sender, in list order |
| NintendoMonitor.MailQuerySpec | email_reader/services/nintendo_monitor.py:102-112 | each term's operand is its sender; the query is `(…) after:` followed by a date that parses back to yesterday |
| NintendoMonitor.MatchesSpec | email_reader/services/nintendo_monitor.py:155-159 | a keyword matches exactly when it is listed and its lower-case form occurs in the lower-cased "subject body" |
| NintendoMonitor.MatchesAppend | email_reader/services/nintendo_monitor.py:158-159 | matching keeps the keyword list's order: it distributes over concatenation |
| NintendoMonitor.Switch2Subsumed | email_reader/services/nintendo_monitor.py:48-56 | any email matching "nintendo switch 2" also matches "switch 2" |
| NintendoMonitor.VerdictSpec | email_reader/services/nintendo_monitor.py:161-168 | a purchase alert exactly when both lists match, a mention exactly when only Switch 2 keywords match, nothing exactly when no Switch 2 keyword matches |
| NintendoMonitor.PurchaseAlertData | email_reader/services/nintendo_monitor.py:205-215 | a purchase alert is HIGH and carries the purchase matches and the agent's analysis |
| NintendoMonitor.MentionAlertData | email_reader/services/nintendo_monitor.py:238-246 | a mention is MEDIUM and carries neither purchase keywords nor an analysis |
| NintendoMonitor.RecipientsSpec | email_reader/services/nintendo_monitor.py:218-251 | a HIGH alert goes to every enabled config; a MEDIUM one only to enabled `console`/`file` configs, which are therefore a subset |
| NintendoMonitor.SendAlert | email_reader/services/nintendo_monitor.py:255-271 | dispatch by method: console shows, file and webhook deliver or fail (caught), email only logs, any other method is unknown; it never raises |
| NintendoMonitor.DispatchesSpec | email_reader/services/nintendo_monitor.py:218-220 | one dispatch per recipient, in configuration order, each of the same alert with that channel's own outcome |
| NintendoMonitor.Preview | email_reader/services/nintendo_monitor.py:200 | the body preview is the first 500 characters |
| NintendoMonitor.AlertLearningRejected | email_reader/services/nintendo_monitor.py:205-227 | the learning as written (keyword lists as list values) is refused by the store's metadata check for every email |
| NintendoMonitor.AlertLearningStored | email_reader/services/nintendo_monitor.py:223-227 | the corrected learning is storable and reads back as a LEARNING of importance 1.0 with the alert data |
| NintendoMonitor.ObservationStored | email_reader/services/nintendo_monitor.py:171-180 | the observation is storable and reads back as an OBSERVATION of importance 0.3 with both match lists joined |
| NintendoMonitor.HandleStepLanded | email_reader/services/nintendo_monitor.py:182-229 | (with the corrected learning) after a successful assessment, every recipient of the HIGH alert gets it once both interaction records land; the two interaction records and the learning are appended up to the first unanswered write, and the handler passes exactly when all three land |
| NintendoMonitor.HandleStepCut | email_reader/services/nintendo_monitor.py:182-229 | an interaction write that goes unanswered raises before any alert is sent or the learning written |
| NintendoMonitor.HandleStepRefused | email_reader/services/nintendo_monitor.py:182-203 | an unanswered recall, or a recall or completion that fails, raises before any alert is sent or record written |
| NintendoMonitor.ConcludeHandled | email_reader/services/nintendo_monitor.py:171-180 | once the verdict's handler has only appended, a completed analysis reports the verdict and its last record is the observation |
| NintendoMonitor.PurchaseStepHandled | email_reader/services/nintendo_monitor.py:161-163 | the purchase branch reports a purchase alert, only appends, and ends with the observation when it completes |
| NintendoMonitor.NoticeStepHandled | email_reader/services/nintendo_monitor.py:165-168 | the mention branch reports a mention, only appends, and ends with the observation |
| NintendoMonitor.ResponseStepHandled | email_reader/services/nintendo_monitor.py:161-180 | whatever the verdict, handling it only appends to memory and to the alert log, reports the email's verdict, and ends with the observation when it completes |
| NintendoMonitor.AnalysisStepSpec | email_reader/services/nintendo_monitor.py:136-180 | an email is reported skipped exactly when the dedup search finds a record, and then nothing is written or sent; a failed dedup search raises with nothing else done; a completed analysis reports the email's own verdict and ends with an observation the dedup search matches; records and alert log only grow |
| NintendoMonitor.AnalyzingKept | email_reader/services/nintendo_monitor.py:136-180 | the per-email analysis keeps the invariant the batch needs: it only appends and reports the email's verdict |
| NintendoMonitor.BatchSpec | email_reader/services/nintendo_monitor.py:98-134 | for any per-email step that only appends and reports the email's verdict: one report per analysed email, in order; all emails are analysed exactly when none fails; records and alert log only grow |
| NintendoMonitor.BatchStops | email_reader/services/nintendo_monitor.py:130-134 | the first error ends the batch: later emails do not change its outcome |
| NintendoMonitor.Monitor.constructor | email_reader/services/nintendo_monitor.py:32-72 | a monitor starts with the six senders, the seven Switch 2 keywords, the nine purchase keywords and no alert configs |
| NintendoMonitor.Monitor.AddAlertConfig | email_reader/services/nintendo_monitor.py:74-77 | appends the config, so configs are visited in insertion order |
| NintendoMonitor.Monitor.Broadcast | email_reader/services/nintendo_monitor.py:218-251 | the loop over configs appends exactly the dispatches to the alert's recipients |
| NintendoMonitor.Monitor.HandlePurchase | email_reader/services/nintendo_monitor.py:182-229 | (with the corrected learning) its result and new state are `HandleStep`'s, described by `HandleStepLanded` and `HandleStepCut`; a failed recall or completion raises with nothing written or sent |
| NintendoMonitor.Monitor.HandleMention | email_reader/services/nintendo_monitor.py:231-253 | only enabled console/file channels get the MEDIUM alert |
| NintendoMonitor.Monitor.Conclusion | email_reader/services/nintendo_monitor.py:171-180 | records the observation; result and state are `Conclude`'s, which `ConcludeHandled` describes |
| NintendoMonitor.Monitor.RespondToPurchase | email_reader/services/nintendo_monitor.py:161-163 | the purchase branch; result and state are `PurchaseStep`'s, which `PurchaseStepHandled` describes |
| NintendoMonitor.Monitor.RespondToNotice | email_reader/services/nintendo_monitor.py:165-168 | the mention branch; result and state are `NoticeStep`'s, which `NoticeStepHandled` describes |
| NintendoMonitor.Monitor.AlreadyProcessed | email_reader/services/nintendo_monitor.py:141-146 | the dedup search for the email id; a found email is skipped with only the two requests counted |
| NintendoMonitor.Monitor.Respond | email_reader/services/nintendo_monitor.py:161-180 | (with the corrected learning) runs the verdict's handler and then records the observation; result and state are `ResponseStep`'s, which `ResponseStepHandled` describes |
| NintendoMonitor.Monitor.AnalyzeEmail | email_reader/services/nintendo_monitor.py:136-180 | (with the corrected learning) result and state are `AnalysisStep`'s, which `AnalysisStepSpec` describes |
| NintendoMonitor.Monitor.CheckForEmails | email_reader/services/nintendo_monitor.py:98-134 | (with the corrected learning) asks the listing for 50 emails for the query; the loop computes the batch of analyses over them, which `BatchSpec` and `AnalyzingKept` describe: each email in order is reported skipped or with its own verdict, the first error stops the batch, and records and alert log only grow |
| Text.LowerIdempotent | email_reader/services/nintendo_monitor.py:155 | lower-casing yields lower case and is idempotent |
| Text.ContainsIffOccurs | email_reader/services/nintendo_monitor.py:158 | `kw in content` holds exactly when `kw` occurs at some position |
| Text.WordsOfJoin | email_reader/services/scheduler_service.py:97 | `split()` of space-joined words gives the words back |
| Text.IntToStringRoundTrip | email_reader/services/scheduler_service.py:94 | `int(str(n)) == n` whenever `str(n)` succeeds (at most 4300 digits); beyond the limit `int()` refuses the text too |
| Text.NatToStringFits | email_reader/services/scheduler_service.py:244 | a natural number has at most `w` decimal digits exactly when it is below `10^w`, so `str(n)` succeeds exactly for `abs(n) < 10^4300` |
| Text.AsciiNumeral | email_reader/services/scheduler_service.py:94 | an ASCII digit string is a numeral with its usual decimal value, every character counts towards the digit limit, and `int()` reads it exactly when it has at most 4300 digits |
| Text.NumeralUnderscore | email_reader/services/scheduler_service.py:94 | `int()` accepts a single underscore between two numerals and ignores it, both in the value and in the count of digits the 4300-digit limit applies to |
| Text.DigitLimit | email_reader/services/scheduler_service.py:94 | `int()` reads a numeral of 4300 digits and refuses one of 4301 |
| Text.SeparatorKept | email_reader/services/scheduler_service.py:94 | `int()` refuses a literal next to one of the separators U+001C..U+001F, which `split()` treats as whitespace |
| Text.FormatDateRoundTrip | email_reader/services/gmail_service.py:231-232 | `%Y/%m/%d` is ten characters and parses back to the date |

## Left out

- OAuth, token pickling and the credential files (gmail_service.py:27-101, 349-415) are not modelled; `GmailApi` stands for an authenticated service.
- The language-model chain, the OpenAI embeddings and Chroma's vector search are abstract (`Completion`, `Ranker`). The ranker's own contract (at most `limit` hits of stored records of the filtered kind) is a hypothesis of `SearchResultSound`, not a fact the model proves.
- Each clock reading is one parameter per top-level call: `now` for timestamps and `last_run`, and `yesterday` for the query date. Two readings within one call are taken to agree.
- APScheduler's triggers, timing, time zones and the jobs it really runs are not modelled. A trigger's acceptance is the `Acceptance` parameter. `ExecuteJob` returns the action it would take and does not run the monitor check.
- `monitor_emails`, the async polling loop with its sleeps (nintendo_monitor.py:79-96), is not modelled. `CheckForEmails` is one iteration.
- The alert sinks are not modelled: the console print, the file append, the webhook POST and the email placeholder (nintendo_monitor.py:273-306). Each dispatch is logged with its outcome, and the file and webhook outcome is the `Delivery` parameter.
- `get_monitoring_stats` and `last_check` (nintendo_monitor.py:308-317) are not modelled: they are a read-only report.
- The titles of notifications, environment configuration loading (notification_service.py:78-103), `test_notifications` and `send_quick_notification` (296-308) are not modelled. The latter two are `send_notification` with fixed texts.
- `mark_as_read`, `mark_as_unread`, `get_user_profile` and `search_emails` (gmail_service.py:236-293) are not modelled. Each is one pass-through API call, and `search_emails` is `GetMessages` with the caller's query.
- `get_job_status` and `get_all_jobs` (scheduler_service.py:179-198) are not modelled: they copy APScheduler's next-run time into the config.
- Scheduler.SchedulerService.AddJob: the stored `JobConfig` is a value, so later changes through the caller's own reference to the same object are not modelled.
- The agent's `get_memory_stats` and `get_memories_by_type` delegates (memory_agent.py:146-148, 159-161) are not modelled separately. They are the store's `GetMemoryStats` and `GetMemoriesByType`.
- The default construction of collaborators (`ChromaMemoryManager()`, `GmailService()` when none is passed) is not modelled. Constructors take them as parameters.
- Python `str.lower` is ASCII-only here. Case folding of non-ASCII letters is not modelled. `split()` splits on Unicode whitespace (`str.isspace()`). `int()` strips the same whitespace except the separators U+001C..U+001F, and reads digits of any script.
- The limit on integer–string conversion (`Text.MaxStrDigits`) is CPython's default of 4300 digits. Changing it with `sys.set_int_max_str_digits` or `PYTHONINTMAXSTRDIGITS` is not modelled, nor are Python versions without the limit.
- The RFC 2822 date parsing, base64 and UTF-8 decoding and reply stripping are abstract (`Codecs`). Timestamps are kept as their ISO text.
- ChromaMemory.ToEntry: a stored timestamp is accepted whenever it is a string. `datetime.fromisoformat` rejecting text that is not ISO 8601 is not modelled, nor is pydantic coercing a numeric string importance to a float (such a record is refused).
- The `:.2f` rendering of importance is the abstract `scoreText`.
- MemoryAgent.FormatMemories: it states the sentinel case and one line per memory in order (through `FormatMemoriesAppend`), but not the text of the two-decimal number.
- ChromaMemory.MemoryManager.AddMemory: which metadata values the store refuses is fixed as anything other than a string, number or boolean (`Storable`). The Chroma server's exact rules are not modelled, nor is a missing `memory_type` or `timestamp` overridden by the caller.
- Integers and floats in metadata are one `Number` kind. Distances and scores are exact reals, and no floating-point rounding is modelled.
- A message without `id`/`threadId`/`payload`, which raises `KeyError` in `get_message_detail`, is not modelled: `RawMessage` always has them. Only an HTTP error (a `None` fetch) drops a message.
- Gmail.SendSmsNotification: a missing phone number would be formatted as the text "None" in the address. The model takes the phone number as a string.
- In `_analyze_email_for_switch2`, `email.get(...)` defaults are not needed. A `MessageDetail` always has every key, and a missing date is `None` as the detail writes it.

## Findings

| source | as written | input that shows it | evidently intended | confidence | as-written member | corrected member |
|---|---|---|---|---|---|---|
| email_reader/services/nintendo_monitor.py:205-227 | the purchase alert's learning is stored with `alert_data` as metadata. That holds the keyword lists as Python lists (and a missing date as None), which the vector store's metadata check refuses, so `add_learning` raises | any email not seen before whose subject or body contains "switch 2" and "order", on a reachable store; the learning's `switch2_keywords` is `["switch 2"]` | the alert data stored with the lists joined into strings, as the observation at lines 177-178 already does, so the learning and then the observation are written and the email is not re-alerted on the next check | medium, not executed | NintendoMonitor.AlertMetadataAsWritten with NintendoMonitor.AlertLearningRejected | NintendoMonitor.AlertMetadata with NintendoMonitor.AlertLearningStored and NintendoMonitor.Monitor.HandlePurchase |
