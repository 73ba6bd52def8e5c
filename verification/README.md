# Campaign API sync lifecycle, modelled in Dafny

The NetFile Campaign API client ships three copies of one sync lifecycle:

- the command-line client's `--sync` (and its `--sync-topic` loop);
- the demonstration `main()` with a CAL flow followed by a Global flow;
- the CAL-transactions example, whose rounds are gated by peeks.

Each copy does the same things in the same order:

1. It checks that the system reports "ready" (in any case).
2. It reuses the stored subscription id, or creates a subscription and writes the new id to the config file.
3. It opens a session, or in the example opens one session per topic in every round that a peek allows.
4. It drains each configured topic with the offset/limit paginator. The demonstration scripts log a record range for every page, computed by `print_query_results`.
5. It completes the session, or on an exception tries to cancel the session it holds.

The model replaces the server with a script (`Oracle.Script`). The script holds:

- the status and the feed count;
- queues of create-subscription, create-session and peek answers;
- the pages of each topic in each session;
- at most one failure point: the call made at that position raises.

Every driver is a pure function from a script, plus the stored subscription id, to a run. A run is the trace of calls the driver made (`Protocol.Event`) and how it ended (`Lifecycle.Outcome`). The trace includes HTTP requests, config writes and range lines. The properties are lemmas over these traces.

The except-blocks of the client and of `main()` read the held session's id as `sync_session.id`. The session is a dict, so that read raises AttributeError before any request is sent. The model therefore takes how the id is read as a parameter (`Lifecycle.Access`):

- `ByAttribute` is the code as written;
- `ByKey` is `sync_session['id']`, which the example uses.

Both variants are proved about (see Findings).

Modules:

- `Protocol`: identifiers, pages, events, and counting calls in a trace.
- `Oracle`: the scripted server and one step per endpoint.
- `Commands`: the two command enumerations.
- `Status`: the readiness test.
- `RecordRange`: `print_query_results`.
- `Paginator`: the per-topic loop and its reference plan.
- `Lifecycle`: run outcomes, the subscription step and the cancel handler.
- `ClientSync`: `--sync` and `--sync-topic`.
- `MainFlows`: the CAL and Global flows and `main()`.
- `PeekGated`: the CAL-transactions example.

## Model

| member | source | states |
|---|---|---|
| Commands.SubscriptionCommandOfCode | src/campaign_api_client.py:193-197 | a value names a subscription command exactly when it is 1..4, and the command found carries that value |
| Commands.SessionCommandOfCode | src/campaign_api_client.py:200-205 | a value names a session command exactly when it is 1..5, and the command found carries that value |
| Commands.SubscriptionCommandNamed | src/campaign_api_client.py:193-197 | lookup by name finds the one subscription command with that name and no other |
| Commands.SessionCommandNamed | src/campaign_api_client.py:200-205 | lookup by name finds the one session command with that name and no other |
| Commands.SessionCancelNameIsSubscriptionCancel | src/campaign_api_main.py:145 | the Global flow's subscription cancel uses the session enum's `Cancel`; the route sees the name, which the subscription enum reads as its own `Cancel`, even though the two numeric values differ |
| Status.Lower | src/campaign_api_client.py:238 | lower-casing keeps the length and maps each character on its own |
| Status.ReadyIgnoresCase | src/campaign_api_client.py:238 | a status passes the readiness test exactly when it spells "ready" in any mix of cases |
| Oracle.FetchSystemReport | src/campaign_api_client.py:50-62 | the system report is one recorded call; it answers the scripted status unless it is the failing call |
| Oracle.RetrieveSyncFeeds | src/campaign_api_client.py:244-247 | the feed query is one recorded call that answers the scripted feed count |
| Oracle.CreateSubscriptionCall | src/campaign_api_client.py:64-71 | a create call consumes the first scripted answer and leaves the rest of the script alone; it raises when none is left |
| Oracle.CreateSessionCall | src/campaign_api_client.py:94-100 | a create-session call records its subscription id and range limit, and consumes the first session answer |
| Oracle.PeekCall | src/sync_cal_transactions_example.py:62 | a peek consumes the next scripted `dataAvailable` |
| Oracle.FetchPage | src/campaign_api_client.py:107-111 | a topic read records session, topic, offset and limit; it answers the page at its index and raises when the script has none |
| RecordRange.CurrentRecordCount | src/campaign_api_main.py:166 | page 0 is preceded by no records; with a non-negative limit, a positive page number n is preceded by between 0 and (n-1)*limit records |
| RecordRange.RangeOf | src/campaign_api_main.py:161-179 | a range is logged exactly when `totalCount > 0`; it spans as many records as the page holds and carries the total; it starts at (n-1)*limit+1 for page n >= 1 and at 1 for page 0 |
| RecordRange.ConsecutivePagesAdjoin | src/campaign_api_main.py:166-168 | after a full page, the next page's range starts right after the previous one ends |
| RecordRange.RangesCountFetchedRecords | src/campaign_api_main.py:166-168 | over pages numbered from 1, the range of page j ends at the number of records fetched through page j, so the lines count records without gap or overlap |
| RecordRange.ZeroBasedNumberingRepeatsFirstRecord | src/sync_cal_transactions_example.py:125 | the `page_number*page_size` branch makes page 0 start at record 1, the same record page 1 starts at |
| Paginator.Drain | src/campaign_api_client.py:279-286 | the loop only appends reads of its own topic with its own page size; the failing read ends it |
| Paginator.DrainFollowsPlan | src/campaign_api_main.py:58-68 | without a failure, draining a topic whose pages end makes exactly the planned calls: page j is read at offset j*size, followed by its range line when the driver logs ranges |
| Paginator.FetchesOfTopic | src/campaign_api_client.py:279-286 | a topic of k pages takes exactly k reads, at offsets 0, size, 2*size, ... |
| Paginator.ReportsFollowFetches | src/campaign_api_main.py:63-68 | each page read is followed by its range line, exactly once and in read order: 2k calls for k pages |
| Paginator.OnlyNextPageFlagSteers | src/campaign_api_client.py:283-286 | without range logging, two servers whose pages agree on `hasNextPage` get the same reads and the same success, whatever the results, counts or page numbers |
| Paginator.DrainTopics | src/campaign_api_main.py:57-68 | reading a list of topics only appends reads of those topics in that session |
| Paginator.DrainTopicsFollowsPlan | src/campaign_api_main.py:57-68 | without a failure, topics are drained one after the other in the listed order, each as planned |
| Lifecycle.EnsureSubscription | src/campaign_api_main.py:41-50 | a stored id is reused with no call; otherwise exactly one create call comes first, and the new id is written under the flow's key before it is returned |
| Lifecycle.CancelOnError | src/campaign_api_main.py:79-84 | without a held session the handler does nothing; reading the id as an attribute raises before any request; reading it by key sends the session's Cancel |
| ClientSync.HoldSession | src/campaign_api_client.py:277-299 | a held session ends Done or with a failure that does not escape; no call follows the failing one except the handler's Cancel |
| ClientSync.Subscribe | src/campaign_api_client.py:254-299 | the inner try-block ends Done, without data, or with a failure that does not escape; no call follows the failing one except the handler's Cancel |
| ClientSync.OpenSession | src/campaign_api_client.py:270-293 | the session request is the first call after the subscription step, and no call follows the failing one except the handler's Cancel |
| ClientSync.Sync | src/campaign_api_client.py:235-299 | every `--sync` run starts with the system report and stops at the failure point, followed at most by the handler's Cancel |
| ClientSync.SyncTopic | src/campaign_api_client.py:342-352 | after the system report, `--sync-topic` only reads the one topic, 1000 records at a time |
| ClientSync.NotReadyStopsAfterReport | src/campaign_api_client.py:236-240 | a run ends NotReady exactly when the report succeeds with a status that is not "ready"; it then made no call besides the report |
| ClientSync.StoredIdReused | src/campaign_api_client.py:256-272 | with a stored id there is no create call and no config write, and every session is opened with the stored id |
| ClientSync.SubscribeCreatesOnce | src/campaign_api_client.py:256-272 | without a stored id the inner try-block starts with the one create call and never makes another |
| ClientSync.SubscribeOpensAfterWrite | src/campaign_api_client.py:256-272 | without a stored id a session is opened only right after the config write of the id from the first create answer |
| ClientSync.NewIdPersistedBeforeSession | src/campaign_api_client.py:256-272 | a whole run without a stored id creates at most one subscription; any session opens at position 4, right after the config write of the id from the nested `subscription.id` |
| ClientSync.SyncNoData | src/campaign_api_client.py:272-293 | a run without data ends on the session request, with no topic read and no session command anywhere in the run |
| ClientSync.NoDataMeansNoTopicReads | src/campaign_api_client.py:273-293 | a run that ends without data makes no topic read and sends no session command |
| ClientSync.HappyRun | src/campaign_api_client.py:236-291 | against a server that answers everything, the run is Done and makes exactly the reference calls |
| ClientSync.HappyPath | src/campaign_api_client.py:278-291 | on the success path the three topics are drained in order, 50 records at a time; exactly one Complete is sent and no Cancel |
| ClientSync.AsWrittenNeverCancels | src/campaign_api_client.py:294-297 | as written, no run ever sends a Cancel |
| ClientSync.CorrectedCancelsHeldSession | src/campaign_api_client.py:294-297 | when the id is read by key, a run that fails after any topic read ends with the Cancel of the session it holds |
| ClientSync.SyncTopicReadsFirstPageTwice | src/campaign_api_client.py:342-352 | `--sync-topic` reads offset 0 once and discards it, then reads the topic's k pages at offsets 0, 1000, ... |
| ClientSync.StoredIdHoldsSession | src/campaign_api_client.py:244-274 | with a stored id and a session answer with data, the run reaches the held session after exactly three calls |
| ClientSync.FirstReadRaisesRun | src/campaign_api_client.py:272-299 | when the first topic read raises, nothing else is read or completed; only the by-key handler adds a Cancel |
| ClientSync.AsWrittenLeavesSessionOpen | src/campaign_api_client.py:297 | as written, the failed first read leaves the session neither completed nor cancelled |
| ClientSync.CorrectedCancelsOpenSession | src/campaign_api_client.py:297 | read by key, the same failure is followed by the session's Cancel |
| MainFlows.Handler | src/campaign_api_main.py:79-84 | as written, the handler raises at once and the exception escapes; read by key, it sends the Cancel and escapes only when that Cancel fails |
| MainFlows.Finish | src/campaign_api_main.py:139-157 | after the reads, every call is the held session's Complete, the handler's Cancel of that session, or the subscription cancel named "Cancel", which only a flow that cancels its subscription (Global) sends; a CAL flow sends no subscription command |
| MainFlows.HoldFlow | src/campaign_api_main.py:55-84 | from the held session on, every call belongs to that session or is the subscription cancel |
| MainFlows.OpenSession | src/campaign_api_main.py:52-76 | the session request comes first; then only reads, range lines and commands follow |
| MainFlows.Flow | src/campaign_api_main.py:28-157 | a flow starts with the system report and stops at the failure point; the CAL flow never sends a subscription command, on any path (only the Global flow cancels its subscription, at line 145) |
| MainFlows.Main | src/campaign_api_main.py:24-158 | the Global flow is skipped exactly when the CAL flow's exception escaped, and otherwise starts right after the CAL flow's last call; as written, every CAL failure after a topic read skips it and the run is the CAL flow alone; read by key and with no failure point, it always runs |
| MainFlows.FlowNotReady | src/campaign_api_main.py:34-78 | a flow ends NotReady exactly when the report succeeds with a status that is not "ready"; only the report was requested |
| MainFlows.FlowNoData | src/campaign_api_main.py:54-76 | a flow without data ends on the session request, with no topic read and no command |
| MainFlows.FlowStoredIdReused | src/campaign_api_main.py:41-54 | with a stored id a flow makes no create call and no config write, and opens its session with that id |
| MainFlows.FlowNewIdPersisted | src/campaign_api_main.py:41-54 | without a stored id there is at most one create call, right after the report; the session opens only after the write of the nested id under the flow's key |
| MainFlows.FlowHappyPath | src/campaign_api_main.py:34-74 | against a server that serves it, a flow is Done after the reference calls: topics in the listed order, 1000 per page, each page followed by its range line, then Complete, and for Global only the subscription cancel |
| MainFlows.FlowAsWrittenEscapes | src/campaign_api_main.py:79-84 | as written, a flow never cancels, and a failure after a topic read escapes `main()` |
| MainFlows.FlowCorrectedCancels | src/campaign_api_main.py:79-84 | read by key, a failure after a topic read ends with the held session's Cancel, and escapes only if that Cancel was the failing call |
| MainFlows.MainAsWrittenSkipsGlobal | src/campaign_api_main.py:83 | as written, a CAL failure after a topic read means the Global flow never starts and the run ends with the CAL calls |
| MainFlows.MainCorrectedRunsGlobal | src/campaign_api_main.py:94-158 | read by key and with no failure injected, the Global flow always runs right after the CAL flow's last call |
| MainFlows.MainAsWrittenStopsAfterCal | src/campaign_api_main.py:83 | against a server whose first CAL topic read raises, the as-written run ends after the failed first read: no Cancel, no Global flow |
| MainFlows.MainCorrectedContinuesWithGlobal | src/campaign_api_main.py:81-123 | against the same server, the corrected run cancels the CAL session and goes on to the Global flow |
| MainFlows.GlobalCancelsCompletedSession | src/campaign_api_main.py:139-156 | on a server whose Global subscription cancel fails: read by key, the handler cancels the session that was just completed and the failure does not escape; as written, nothing is cancelled and the exception escapes |
| PeekGated.RoundTopics | src/sync_cal_transactions_example.py:71-93 | a round's topics leave the peek answers alone; once the call at the failure point raises, they stop right there |
| PeekGated.Round | src/sync_cal_transactions_example.py:71-102 | a round leaves the peek answers alone; once the call at the failure point raises, the round breaks right there |
| PeekGated.Rounds | src/sync_cal_transactions_example.py:67-102 | the loop starts with its peek; once the call at the failure point raises, the loop breaks right there |
| PeekGated.Gated | src/sync_cal_transactions_example.py:62-115 | from the first peek on, the run stops at the failure point, followed at most by the handler's Cancel |
| PeekGated.Example | src/sync_cal_transactions_example.py:33-115 | a run starts with the system report and stops at the failure point, followed at most by the handler's Cancel |
| PeekGated.Handle | src/sync_cal_transactions_example.py:109-115 | the handler cancels the most recently opened session, if any, and changes nothing else |
| PeekGated.RoundsKeeps | src/sync_cal_transactions_example.py:67-102 | the loop consumes session answers from the front, and `sync_session` is always the last one consumed |
| PeekGated.RoundCalls | src/sync_cal_transactions_example.py:71-102 | a round opens sessions with range limit 10000, reads pages of 1000, and ends with one Complete for the last session it opened |
| PeekGated.RoundCounts | src/sync_cal_transactions_example.py:96-102 | a finished round sends exactly one Complete and no peek |
| PeekGated.RoundsCounts | src/sync_cal_transactions_example.py:67-102 | a finished loop makes one more peek than it sends Completes, because the last peek answers false |
| PeekGated.GatedFirstPeek | src/sync_cal_transactions_example.py:62-67 | the gate's peek comes first; the run ends without data exactly when that first peek answers false, and a loop peek follows a true one |
| PeekGated.GatedCalls | src/sync_cal_transactions_example.py:62-115 | after the gate only peeks, session requests, reads, range lines and Completes are made, and at most a final Cancel |
| PeekGated.GatedCancelsMostRecent | src/sync_cal_transactions_example.py:109-115 | a failed run ends with the Cancel of the most recently opened session when one was opened, with no Cancel otherwise, and escapes only when that Cancel failed |
| PeekGated.GatedBalance | src/sync_cal_transactions_example.py:62-102 | a successful run makes two more peeks than Completes, and sends no Cancel |
| PeekGated.ExampleFirstPeekGates | src/sync_cal_transactions_example.py:62-64 | a run ends without data only after a first peek answering false, and then no session was opened and nothing read; on a clean, ready server with a subscription, that peek alone decides it |
| PeekGated.ExampleStoredIdReused | src/sync_cal_transactions_example.py:47-56 | with a stored id there is no create call and no config write; the stored id is used for every peek and session |
| PeekGated.ExampleNewIdPersisted | src/sync_cal_transactions_example.py:47-62 | without a stored id the one create call and the config write of the top-level `id` come before any peek, and that id is used throughout |
| PeekGated.ExampleCancelsMostRecent | src/sync_cal_transactions_example.py:109-115 | a failed run ends with the Cancel of the last session answer it consumed, even one already completed |
| PeekGated.ExampleBalance | src/sync_cal_transactions_example.py:33-104 | a successful run makes two more peeks than Completes and sends no Cancel |
| PeekGated.RoundOfOneTopic | src/sync_cal_transactions_example.py:71-102 | on a clean server, a one-topic round opens a session with range limit 10000, reads the topic as planned, and completes that session |
| PeekGated.ExampleOneRound | src/sync_cal_transactions_example.py:38-104 | with peeks true, true, false the run is Done after exactly one round between the gate and the final peek |
| PeekGated.ExampleCancelsCompletedSession | src/sync_cal_transactions_example.py:67-115 | when the peek after one completed round raises, the handler cancels the session that round completed |

## Left out

- HTTP transport, URL building and JSON decoding. Each endpoint is one `Oracle` step answered from the script. The double-slash topic URL and `fetch_subscription`'s two-placeholder route are not modelled.
- A transport exception in the client's request helpers calls `sys.exit()`. The resulting `SystemExit` bypasses every `except Exception` block. The model's failure point stands for a non-2xx response, which raises an ordinary exception, so handlers run. The immediate exit is not modelled.
- The scripts call the client class in `src/campaign_api_client.py` with signatures it does not have. The constructor, `create_subscription`, `create_session`, `execute_session_command` and `execute_subscription_command` take other argument counts, and `fetch_sync_topic`, `read_sync_topic` and `peek_subscription` are not defined there. The calls are modelled as abstract events carrying only the arguments that matter to the lifecycle.
- The stored subscription ids are model inputs. `src/__init__.py` defines only `subscription_id`. `cal_subscription_id` and `global_subscription_id` are defined nowhere, so as written `src/campaign_api_main.py:41`, `:110` and `src/sync_cal_transactions_example.py:47` raise NameError inside their try-blocks. The model assumes these names are defined. A config write is one `WriteConfig` event.
- The other command-line branches of the client (system report, feed, create/cancel subscription, session commands), `argparse`, and the unused filing and filing-element endpoints.
- Logging text, except the range line of `print_query_results`. `sys.exit` ends a run and is modelled by its outcome.
- `time.time()` measurements and the per-topic average in the example: wall-clock time and floating point. The range line omits the seconds.
- Status.Lower: lower-cases ASCII letters only. Python's `str.lower` also folds other Unicode letters; no status spelling of "ready" depends on that.
- Oracle.RetrieveSyncFeeds: answers the number of feeds only. `feed['name']` is logged and passed to `create_subscription` (`src/campaign_api_client.py:258`). The model does not record the create call's arguments, so it does not state which feed the subscription is for.
- RecordRange.CurrentRecordCount: for a positive page number its contract bounds the count. The exact value (n-1)*limit is stated by `RecordRange.RangeOf`, whose first record is (n-1)*limit+1.
- The system report's component fields are logged only. A report missing them (KeyError) is not modelled.
- `setup.py` packaging.

## Findings

| source | as written | input that shows it | evidently intended | confidence | as-written member | corrected member |
|---|---|---|---|---|---|---|
| src/campaign_api_client.py:297 | the except-block reads `sync_session.id` on a dict, which raises AttributeError before the Cancel request, so a held session is never cancelled | a ready server with one feed, a stored id and a session with data; the first topic read (call 3) raises | `sync_session['id']`, so that the held session is cancelled | not executed | ClientSync.AsWrittenLeavesSessionOpen | ClientSync.CorrectedCancelsOpenSession |
| src/campaign_api_main.py:83 | the CAL except-block reads `sync_session.id`; the AttributeError escapes `main()`, so no Cancel is sent, the Global flow never runs and line 158 is skipped | a ready server with a CAL session whose first topic read raises, both ids stored | `sync_session['id']`, so that the CAL session is cancelled, the error logged, and the Global flow runs | not executed | MainFlows.MainAsWrittenStopsAfterCal | MainFlows.MainCorrectedContinuesWithGlobal |
| src/campaign_api_main.py:156 | the Global except-block has the same attribute read, so a failed Global flow leaves its session open and escapes | any Global failure after a topic read | `sync_session['id']` | not executed | MainFlows.FlowAsWrittenEscapes | MainFlows.FlowCorrectedCancels |
