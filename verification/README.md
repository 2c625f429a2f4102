# Verified model of the Mizan client SDKs

Mizan is a billing service; this repository holds its Go and Python clients. The service itself
(prices, budgets, lots) lives elsewhere. What is hard here are the two ends of two at-least-once
protocols and the exact arithmetic they rely on, and this project models and proves those:

- **The durable inbox** of the webhook receiver. `InboxModel.dfy` states what persisting one
  delivery means as one atomic operation on two maps. `FileInbox.dfy` is the Go inbox as a class
  whose methods refine that operation; `InboxSteps.dfy` is the same code one system call at a
  time, with any number of workers, faults, crashes and restarts; `SqliteInbox.dfy` is the Python
  inbox as a table with two unique keys; `InboxSimulation.dfy` compares the two;
  `Compaction.dfy` is what the JSON encoder does to a raw payload on its way to disk.
- **The webhook receivers** (`LedgerValidation.dfy`, `Receiver.dfy`, `PythonReceiver.dfy`):
  validation, dispatch and acknowledgement, composed with the inboxes over whole runs.
  `OrderedDelivery.dfy` adds a sender that repeats each sequence until it is acknowledged.
- **The attempt loop** (`Backoff.dfy`, `ReplyReading.dfy`, `RetryClient.dfy`, `AtMostOnce.dfy`)
  against a lossy network and a server keyed on idempotency keys.
- **Exact amounts** (`Decimals.dfy`, `CanonicalInteger.dfy`, `Quantity.dfy`), **ledger export**
  (`LedgerExport.dfy`) and **attribution** (`Attribution.dfy`).

Code that changes state step by step is a class or a method with a loop, proved equal to a
function of its inputs or of the old state; the properties are then lemmas about that function.

## Assumptions about the environment

- A digest is identified with what it is taken of: indices are keyed by the outbox ID and by the
  text `stream:event`, and an alias carries the payload itself. Collisions of SHA-256 are outside.
- `os.Link` creates a name or refuses, and published files survive a process crash. Power loss is
  outside: a retry that finds an alias returns without syncing anything again.
- The JSON encoder is a parameter `encode`, with one hypothesis (`Stable`: encoding the stored form
  changes nothing). `Compaction` gives the concrete encoder and proves the hypothesis for it.
- JSON decoding is a parameter that maps a body to an optional well-typed record. Go's
  `omitempty` zero sequence and Python's `None` are the same fact; text is ASCII, or at least valid Unicode.
- The server of the attempt loop replays a stored response for the same key and body, refuses the
  same key with another body, and takes a request without a key as a new command. What a proxy or a
  broken connection puts in place of its reply carries no success status. A reply ends with its
  closing brace, so a proper part of it is no JSON object.
- Python has its default limit of 4300 digits for `int()`, leading zeros included.
- An exported ledger is append-only with ascending positive sequences. A page is any stretch of the
  next entries, of any length, and names its last sequence as the cursor; an empty page names no
  further one (`FixedPagesAreHonest`: servers with pages of a fixed size are of this kind).
- The feed of the ordered sender is a finite list of requests, sequence n being the n-th
  (`GoodFeedsExist`: every length that int64 sequences allow occurs).

## Findings

- **A crash can lose a delivery for good.** The event file holds the encoded payload, and a later
  delivery is compared with it byte by byte against the raw payload. If the two differ (white space
  outside strings, or any of `<`, `>`, `&`), a crash between the two links leaves files from which
  every redelivery is rejected (`WindowRejectsRetry`, `UntightBodyCanBeLost`). `RecoveryCondition`
  says exactly when recovery holds; `FixedExactlyWhenTight` says which bodies are safe. For the same
  reason a repeat under a new outbox ID is rejected exactly for such a body
  (`NewOutboxIDNeedsStoredForm`).
- **A committed Python mutation can end without result or key.** The loop catches `URLError`,
  `TimeoutError` and `OSError` (mizan-python/src/mizan/client.py:507), and an `HTTPException` is none
  of them: a garbled status line or a chunked body that breaks off leaves `_request` at once, without
  another attempt. So does JSON that the parser gives up on with another exception than
  `JSONDecodeError` (mizan-python/src/mizan/client.py:481-484). `GarbledReplyHidesTheKey` is the
  input, `ErrorsNameTheKey` the exact condition, `KeyCanGoUnnamed` says which calls it can happen to.
- **A lost body is an empty success in Python.** A 2xx reply whose body ends before its first byte
  is read as `{}` and returned (mizan-python/src/mizan/client.py:172, 482), where Go reports an open outcome.
  `LostBodyIsAnEmptyResult` is the input, `ResultIsTheStoredResponse` the exact condition.
- **A lost race needs the same clock.** Between two processes, the loser of the race to link an event
  file is refused unless its record equals the winner's, receive time included (`LostRaceCondition`);
  the mutex rules this out within one process.
- **The inboxes differ** where Python deduplicates an event: it does not record the second outbox
  ID, which may then carry another event (`ConverseFails`; the exact difference is `PartingPoint`).
- **`-0` is accepted** as a signed amount by both SDKs, although WEBHOOKS.md says that
  non-canonical amounts are rejected (`PrintAfterParse`).
- **Thirty-nine attempts can panic.** From `MaxAttempts = 39` on the Go delay computation overflows
  int64 and the random source refuses the negative bound (`PanicsExactlyFrom39`).
- **An empty key is not at most once.** `ConfigureAddon` passes it through (mizan-go/mizan.go:740);
  `AtMostOnceExactlyWithKey` shows that a key is exactly what is needed.
- **A merged Python dict may not validate again**: `other_provider_charge` does not check the provider
  identity it merged in (`RebuildingPythonCharge` gives the exact condition). A leftover FX rule in the
  caller's metadata survives a SAR charge in Python and not in Go (`PythonKeepsOtherFields`,
  `GoClearsLeftoverRule`).
- **Zeros in front can turn Python away.** Beyond 4300 digits `int()` raises, so Python refuses
  quantities and amounts that Go accepts, exactly for strings that long (`QuantityVerdictsPart`,
  `PaddedBeyondTheLimit`).
- **A sequence beyond int64** is 422 in Go, whose decoder refuses it, and passes Python's validation
  only to fail when it is bound to the INSERT, which answers 500 (`SqliteInbox.Insert`).

## Model

| member | source | states |
|---|---|---|
| FileInboxes.FileInbox.Persist | mizan-go/examples/webhook_receiver/main.go:109-164 | persist under the mutex is the atomic operation on the two maps, and each rejection occurs exactly when its own clause fails |
| FileInboxes.FileInbox.WriteEventOnce | mizan-go/examples/webhook_receiver/main.go:166-213 | a name is published once; a taken name succeeds only with equal contents |
| FileInboxes.FileInbox.WriteAliasOnce | mizan-go/examples/webhook_receiver/main.go:166-213 | the same for alias files |
| InboxModel.AcceptsExactly | mizan-go/examples/webhook_receiver/main.go:110-163 | fact by fact: a delivery succeeds exactly when its outbox ID is bound to these very facts, or is free and the event on disk, if any, has them with the delivered payload; a first acceptance files the delivery with only its payload encoded, and binds the outbox ID |
| InboxModel.PersistKeepsInbox | mizan-go/examples/webhook_receiver/main.go:126-163 | accepting keeps every alias resolvable, loses nothing and is durable in both indices; rejecting changes nothing |
| InboxModel.ExactRepeatIsIdempotent | mizan-go/examples/webhook_receiver/main.go:132-135 | an exact repeat of an accepted delivery succeeds at any later time and leaves both indices as they are |
| InboxModel.NewOutboxIDNeedsStoredForm | mizan-go/examples/webhook_receiver/main.go:141-152 | an accepted event that comes again under a new outbox ID is taken exactly when its payload was in stored form |
| InboxSteps.AdvanceIsSound | mizan-go/examples/webhook_receiver/main.go:131-200 | one system call of one worker keeps the indices coherent, only adds files, and keeps what that worker knows true |
| InboxSteps.RunIsSound | mizan-go/examples/webhook_receiver/main.go:131-200 | over every interleaving of workers without the mutex, calls that fail before or after taking effect, crashes and restarts, aliases resolve to matching events and published files never change or vanish |
| InboxSteps.AcceptedForever | mizan-go/examples/webhook_receiver/main.go:132-163 | once a worker has returned success its delivery is durable in every later state |
| InboxSteps.SuccessesNeverContradict | mizan-go/examples/webhook_receiver/main.go:131-163 | no two successes of racing workers ever give one outbox ID two deliveries or one event name two events |
| InboxSteps.LostRaceCondition | mizan-go/examples/webhook_receiver/main.go:192-199 | a worker that finds its event name just linked by another one succeeds exactly when that file is its own to the last field, receive time included, and its outbox ID is not bound otherwise |
| InboxSteps.SoloRefinesAtomic | mizan-go/examples/webhook_receiver/main.go:126-163 | the system calls of one undisturbed worker carry out exactly the atomic operation |
| InboxSteps.CutShortCases | mizan-go/examples/webhook_receiver/main.go:157-163 | a worker stopped anywhere leaves the old files, the finished files, or the window between the two links |
| InboxSteps.RedeliveryRecovers | mizan-go/examples/webhook_receiver/main.go:141-163 | after a crash at any call, redelivering a stored-form payload at any time succeeds and leaves exactly one record for the event |
| InboxSteps.WindowRejectsRetry | mizan-go/examples/webhook_receiver/main.go:147-151 | if the payload is not in stored form, the window rejects every redelivery and stays as it is |
| InboxSteps.RecoveryCondition | mizan-go/examples/webhook_receiver/main.go:113-161 | an acceptable delivery survives a crash at every step exactly when its payload is in stored form or its outbox ID was bound already |
| Compaction.FixedExactlyWhenTight | mizan-go/examples/webhook_receiver/main.go:113 | encoding leaves a payload alone exactly when it has no white space outside strings and none of the escaped characters |
| Compaction.CompactIsIdempotent | mizan-go/examples/webhook_receiver/main.go:113 | encoding the stored form changes nothing, for every text |
| Compaction.JsonEncoderIsStable | mizan-go/examples/webhook_receiver/main.go:113-116 | the concrete encoder meets the one hypothesis of the inbox proofs |
| Compaction.StoredBodyMeansTheSame | mizan-go/examples/webhook_receiver/main.go:113 | for a JSON text, undoing the escapes of the stored body gives what undoing them in the delivered body gives, which is that body without its outer white space if it spelled none itself |
| Compaction.UntightBodyCanBeLost | mizan-go/examples/webhook_receiver/main.go:141-163 | every valid body that is not tight is accepted by a fresh inbox, and has a crash point after which no redelivery is |
| SqliteInboxes.SqliteInbox.Insert | mizan-python/examples/webhook_receiver.py:58-74 | INSERT adds the row exactly when its sequence fits 64 bits and neither unique key is taken, and tells the two refusals apart |
| SqliteInboxes.SqliteInbox.Persist | mizan-python/examples/webhook_receiver.py:45-102 | the insert-then-explain transaction refuses exactly what cannot be bound or contradicts a row sharing either key, and adds a row exactly when no key is taken |
| SqliteInboxes.SucceedsExactly | mizan-python/examples/webhook_receiver.py:56-102 | row by row: persisting succeeds exactly when the sequence has 64 bits and every row with this outbox ID, and every row with this stream and event ID, tells the same facts; it adds the row exactly when there is none |
| SqliteInboxes.ExplanationIsExact | mizan-python/examples/webhook_receiver.py:75-98 | for a refused key the two SELECTs find the identical row exactly when no stored row contradicts the delivery |
| SqliteInboxes.TablePersistKeepsTable | mizan-python/examples/webhook_receiver.py:56-102 | both keys stay unique, rows only grow, success means the full identity is stored, a raise changes nothing |
| SqliteInboxes.ReachableTablesAreUnique | mizan-python/examples/webhook_receiver.py:30-42 | in every reachable table each outbox ID and each (stream, event) determines at most one row |
| InboxSimulation.SimulationStep | mizan-python/examples/webhook_receiver.py:56-102 | a stored-form delivery Go accepts is accepted by Python and keeps the two inboxes related |
| InboxSimulation.PythonFollowsGo | mizan-go/examples/webhook_receiver/main.go:126-163 | forward simulation over whole crash-free runs from any related state |
| InboxSimulation.AcceptedRunsAgree | mizan-python/examples/webhook_receiver.py:56-102 | every run of stored-form deliveries Go accepts from empty, Python accepts, and both end with the same map from (stream, event) to identity: each event file has a row with the same fields, and each row an event file |
| InboxSimulation.PartingPoint | mizan-python/examples/webhook_receiver.py:98-102 | in related states Go accepts exactly what Python accepts minus what Go's own outbox binding, or a shared file name, contradicts |
| InboxSimulation.ColonFreePathsAreInjective | mizan-go/examples/webhook_receiver/main.go:141 | streams without a colon never share an event file name |
| InboxSimulation.ConverseFails | mizan-python/examples/webhook_receiver.py:98-102 | a three-delivery run Python accepts and Go rejects |
| LedgerValidation.ValidateLedgerWebhook | mizan-go/webhooks.go:267-299 | the map-accumulating loop accepts exactly well-formed events whose sum is zero for each rail and unit; each fault is reported exactly, or for postings at the first bad one |
| LedgerValidation.ValidateLedgerPython | mizan-python/src/mizan/webhooks.py:254-290 | the Python validator, in its own order of checks, reaches the same verdict |
| LedgerValidation.ValidLedgersExactly | mizan-go/webhooks.go:267-297 | what both validators accept, field by field |
| LedgerValidation.TotalAddsPrintedAmounts | mizan-go/webhooks.go:281-291 | a total is the plain sum of the integers its postings print, "-0" counting nothing |
| LedgerValidation.BalanceKeysAreDistinct | mizan-go/webhooks.go:286-287 | the joined balance key never merges two balancing domains |
| LedgerValidation.PermutingKeepsVerdict | mizan-go/webhooks.go:277-297 | the order of postings never decides a verdict |
| LedgerValidation.AcceptedHistoryConserves | mizan-go/webhooks.go:293-297 | over any history of accepted events the total of every rail and unit is zero |
| LedgerValidation.ValidateNotificationWebhook | mizan-go/webhooks.go:301-319 | a notification is accepted exactly when it carries the fields its type requires |
| LedgerValidation.ValidateNotificationPython | mizan-python/src/mizan/webhooks.py:293-310 | the Python notification validator reaches the same verdict |
| LedgerValidation.ValidNotificationsExactly | mizan-go/webhooks.go:301-319 | what both validators accept, type by type |
| Receivers.WebhookReceiver.Receive | mizan-go/webhooks.go:188-244 | the checked, validated and persisted request yields the specified response and inbox, status by status |
| Receivers.SuccessesAreKept | mizan-go/webhooks.go:224-243 | over every run of requests, failing file calls, crashes and restarts, a 204 answers a valid ledger event or a valid notification, whose facts the inbox holds from then on under its outbox ID |
| Receivers.AcksAreSafe | mizan-go/webhooks.go:215-227 | over every run of requests, failing file calls, crashes and restarts, a response with sequence n answers a valid balanced event n that the inbox holds from then on, under its outbox ID |
| Receivers.ValidEventsExactly | mizan-go/examples/webhook_receiver/main.go:61-77 | a valid event is answered 204 or 500 with the inbox exactly as persisting its facts and its raw body leaves it |
| Receivers.RefusalsExactly | mizan-go/webhooks.go:189-243 | exactly when each of 400, 401, 413, 422 and 503 is given; none touches the inbox |
| Receivers.AckExactlyOnLedgerSuccess | mizan-go/webhooks.go:224-243 | no error and no notification response acknowledges; every ledger 204 does |
| Receivers.InterruptedRequestRecovers | mizan-go/examples/webhook_receiver/main.go:62-77 | a stored-form request interrupted or failed at any file call gets, when repeated, the answer it would have had |
| PythonReceivers.PythonReceiver.Receive | mizan-python/src/mizan/webhooks.py:153-204 | the Python receiver yields the specified response and table, status by status |
| PythonReceivers.PythonSuccessesAreKept | mizan-python/src/mizan/webhooks.py:176-204 | over every run of requests, database failures and kills, a 204 answers a valid event of either stream that some row holds from then on with its own facts and exact raw body |
| PythonReceivers.PythonAcksAreSafe | mizan-python/examples/webhook_receiver.py:114-135 | over every run of requests, database failures and kills around COMMIT, an acknowledged event is in the table with its exact raw body from then on |
| PythonReceivers.PythonValidEventsExactly | mizan-python/examples/webhook_receiver.py:114-135 | a valid event is answered 204 or 500 with the table exactly as persisting its facts and its raw body leaves it |
| PythonReceivers.PythonRefusalsExactly | mizan-python/src/mizan/webhooks.py:153-204 | exactly when each of 400, 401, 413 and 422 is given; none touches the table |
| PythonReceivers.PythonAckExactlyOnLedgerSuccess | mizan-python/src/mizan/webhooks.py:176-204 | exactly the successful ledger responses carry a sequence |
| OrderedDelivery.HistoryInOrder | mizan-go/webhooks.go:215-227 | what is stored of a business comes from its feed, in file names of its own events, and includes everything acknowledged |
| OrderedDelivery.DeliveredInOrderExactlyOnce | mizan-go/webhooks.go:215-227 | with a sender that waits for each acknowledgement, late duplicates, lost replies, crashes, failures and arbitrary foreign traffic, the stored sequences are 1..c or 1..c+1, each in one record |
| OrderedDelivery.NextSequenceIsAcknowledged | mizan-go/examples/webhook_receiver/main.go:109-163 | after any crashes, failures, losses, duplicates and traffic under other names, the next sequence of the feed is acknowledged by the first undisturbed delivery |
| OrderedDelivery.WholeFeedIsDelivered | mizan-go/webhooks.go:215-227 | from any such history, undisturbed deliveries of the rest end with the whole feed acknowledged and stored exactly once each |
| OrderedDelivery.GoodFeedsExist | mizan-go/webhooks.go:188-227 | every feed length up to 2^63-1 has a receiver with int64 sequences and requests that meet all assumptions on the feed |
| Backoff.NoOverflowBefore38 | mizan-go/mizan.go:1015 | up to attempt 37 the Go delay arithmetic stays in int64 and gives the intended bound within 0..2 s |
| Backoff.OverflowAt38 | mizan-go/mizan.go:1015 | the computation for attempt 38 is the first to leave int64, and its bound is negative |
| Backoff.BoundDoubles | mizan-python/src/mizan/client.py:518 | the bound starts at 100 ms and doubles with each attempt until it stays at 2 s |
| Backoff.TotalBoundClosed | mizan-python/src/mizan/client.py:518 | the delay bounds of n attempts add up to 3.1 s + 2 s (n - 6) from n = 6 on |
| ReplyReading.DecodeApiError | mizan-go/mizan.go:1025-1046 | a missing or ill-typed field keeps its default; retryable needs an explicit true |
| ReplyReading.ReadReply | mizan-go/mizan.go:985-1011 | a reply leads to another attempt only if it says so itself, and to a protocol error exactly when it cannot be read |
| ReplyReading.ReadReplyPython | mizan-python/src/mizan/client.py:477-503 | the same for Python, where an error member that is no object is a protocol error and JSON the parser gives up on is raised past every handler |
| RetryClients.RequestWithHeaders | mizan-go/mizan.go:928-1023 | the Go loop over what the network brings carries out the specified call, and the statement after the loop is never reached |
| RetryClients.Request | mizan-python/src/mizan/client.py:443-519 | the Python loop carries out the specified call, uncaught exceptions included, and the statement after the loop is never reached; a supplied key is the key of every request, else the generated one for a mutation and none for a read |
| RetryClients.LoopControl | mizan-go/mizan.go:938-1022 | a read sends one request and a mutation at most max(1, limit), all identical; only a transport failure or a reply that says so itself leads on, and then it does unless cancelled or overflown; the last arrival decides the outcome |
| RetryClients.LeadsOnExactly | mizan-python/src/mizan/client.py:503-515 | exactly the arrivals after which a mutation may be sent again |
| RetryClients.LastArrivalDecides | mizan-go/mizan.go:966-1011 | for every kind of last arrival how each SDK ends the call, error replies with their own code and retryable flag |
| RetryClients.WaitsAreBounded | mizan-go/mizan.go:1013-1020 | in every environment each wait lies in 0..2 s and their sum in the intended total |
| RetryClients.WaitsAreDrawn | mizan-go/mizan.go:1015 | the wait after each attempt is drawn under the bound of that attempt |
| RetryClients.EveryWaitIsDrawn | mizan-go/mizan.go:1015 | full jitter: every wait from zero to the bound is drawn by some draw |
| RetryClients.TotalWait | mizan-python/src/mizan/client.py:518 | a call with n >= 6 attempts waits at most 3.1 s + 2 s (n - 6) |
| RetryClients.PanicsExactlyFrom39 | mizan-go/mizan.go:1015 | some environment makes the Go loop panic exactly for mutations with 39 attempts or more |
| AtMostOnce.CallCommitsAtMostOnce | mizan-python/src/mizan/client.py:454-519 | one keyed call commits at most once, and exactly once if it returns a result |
| AtMostOnce.ErrorsNameTheKey | mizan-python/src/mizan/client.py:477-515 | every transport, protocol and API error carries the key that was sent; exactly an uncaught Python exception, a Go cancellation or the Go overflow ends a call without it |
| AtMostOnce.GarbledReplyHidesTheKey | mizan-python/src/mizan/client.py:507 | a committed Python mutation whose reply is no HTTP ends after one request with neither result nor key, where Go names the key |
| AtMostOnce.KeyCanGoUnnamed | mizan-go/mizan.go:1016-1018 | some environment ends a call without its key exactly for Python calls and for Go mutations with two attempts or more |
| AtMostOnce.ResultIsTheStoredResponse | mizan-python/src/mizan/client.py:477-489 | the result of a keyed mutation is the response stored for this body, except exactly where Python lost the body of a reply |
| AtMostOnce.LostBodyIsAnEmptyResult | mizan-python/src/mizan/client.py:172 | a success whose body never came is an empty result in Python and an open outcome in Go |
| AtMostOnce.CampaignCommitsAtMostOnce | mizan-go/mizan.go:914-1023 | any number of calls reusing key and body, over any networks and other traffic, leave at most one commit, and all their results are the same up to bodies Python lost |
| AtMostOnce.RepeatUnderOneKey | mizan-python/src/mizan/client.py:146-156 | repeating a call of either SDK under one supplied key and body, as the transport error asks, is such a campaign: at most one commit, for this body if any call returned a result |
| AtMostOnce.ResultMeansOwnBody | mizan-go/mizan.go:1007-1009 | where the key stands for another body no number of attempts returns a result |
| AtMostOnce.Mutate | mizan-go/mizan.go:914-926 | an out-of-scope call sends nothing; otherwise it is the whole Go call with the caller's body under the supplied or generated key, at most once, and a result is the response stored for this very body |
| AtMostOnce.AtMostOnceExactlyWithKey | mizan-go/mizan.go:731-741 | with two attempts or more a mutation is at most once over all environments exactly when its key is not empty |
| CanonicalInteger.IsUnsignedCanonicalInteger | mizan-go/webhooks.go:344-357 | the index loop accepts exactly "0" and digit strings without a leading zero |
| CanonicalInteger.CheckSignedAmount | mizan-go/webhooks.go:282-283 | the three Go conditions together accept exactly the prints of int64 values and "-0" |
| CanonicalInteger.CheckUnsignedAmount | mizan-go/webhooks.go:359-362 | accepts exactly the prints of 0..2^63-1 |
| CanonicalInteger.SignedAmountsExactly | mizan-python/src/mizan/webhooks.py:313-327 | the Go and the Python check accept the same strings: the int64 prints and "-0" |
| CanonicalInteger.ParseAfterPrint | mizan-go/webhooks.go:282 | reading the print of any integer gives it back |
| CanonicalInteger.PrintAfterParse | mizan-go/webhooks.go:337-342 | printing what was read is the identity on every accepted string except "-0" |
| CanonicalInteger.UnsignedAmountsExactly | mizan-python/src/mizan/webhooks.py:321-327 | both unsigned checks accept exactly the prints of 0..2^63-1 |
| CanonicalInteger.MinusZeroIsSignedOnly | mizan-go/webhooks.go:359-362 | "-0" is a signed amount and no unsigned one |
| Quantity.MatchIsForm | mizan-go/usage.go:119 | the pattern finds whole and fraction digits exactly when the string has the decimal form, and then uniquely |
| Quantity.ScalingIsExact | mizan-go/usage.go:166-172 | the digit-padding computation is exactly 1000 times the denoted rational |
| Quantity.ValidateQuantity | mizan-go/usage.go:161-177 | accepts exactly decimal forms with 0 < 1000 value <= 2^63-1 |
| Quantity.ValidateQuantityPython | mizan-python/src/mizan/builders.py:89-98 | the Python check accepts exactly those of them with at most 4300 digits before the point |
| Quantity.QuantityVerdictsPart | mizan-python/src/mizan/builders.py:95 | Go and Python disagree exactly on accepted quantities with more digits, all of which start with a zero that could be left out |
| Quantity.PaddedBeyondTheLimit | mizan-python/src/mizan/builders.py:95 | 4300 zeros in front of any accepted quantity make one that Go accepts and Python refuses |
| Quantity.ValidateWholeCount | mizan-go/usage.go:179-189 | accepts exactly digit strings with 0 < value <= (2^63-1) div 1000 |
| Quantity.ValidateWholeCountPython | mizan-python/src/mizan/builders.py:101-107 | the same with at most 4300 digits |
| Quantity.ValidateExactInteger | mizan-go/usage.go:191-205 | accepts exactly any number of zeros followed by the print of an int64 that is not negative, zero only where allowed |
| Quantity.ValidateExactIntegerPython | mizan-python/src/mizan/builders.py:110-117 | accepts exactly those of them with at most 4300 digits |
| Quantity.WholeCountIsQuantity | mizan-python/src/mizan/builders.py:101-107 | for integer strings the whole-count bound is the quantity bound in either SDK, and what passes fits int64 after milli scaling |
| Quantity.ZerosDoNotMatter | mizan-python/src/mizan/builders.py:89-98 | leading and trailing zeros that fit the form change neither value nor verdict, in Python exactly up to its digit limit |
| LedgerExport.ExportLedger | mizan-go/examples/end_to_end/main.go:211-229 | the Go loop ends for every server, by the distance of the cursor to the largest int64, with the specified result |
| LedgerExport.ExportLedgerPython | mizan-python/examples/end_to_end.py:194-205 | the Python loop ends for every server with a last sequence, with the specified result |
| LedgerExport.ExportFollowsTheCursors | mizan-go/examples/end_to_end/main.go:211-229 | against any server an export is one chain of calls along its cursors, ok exactly when every call brought a page; entries, count and cursor are those of the chain |
| LedgerExport.ExportTakesTheRest | mizan-go/examples/end_to_end/main.go:211-229 | from any cursor after j entries the pages are exactly the entries from there to the final cursor, though the ledger grows in between and pages have any length |
| LedgerExport.ExportIsExact | mizan-python/examples/end_to_end.py:194-205 | for pages of any length, empty ones included, the export is in order exactly what the ledger holds in (0, cursor], at the last call and at any later time, and count is its number |
| LedgerExport.ExportIsComplete | mizan-go/examples/end_to_end/main.go:211-229 | if no page is empty before the end, the pages are in order exactly the ledger of the last call |
| LedgerExport.FixedPagesAreHonest | mizan-go/mizan.go:905-912 | a server with pages of a fixed size meets every assumption of the export theorems |
| Attribution.ProviderMetadata | mizan-go/usage.go:273-289 | a fresh copy carries the trimmed explicit identity over the caller's fields, exactly when it validates |
| Attribution.ConversationMetadata | mizan-go/usage.go:324-341 | a fresh copy carries the trimmed conversation and channel, exactly when original and result validate |
| Attribution.TrimDropsOuterSpace | mizan-go/usage.go:282-283 | a text is some spaces, its trim, which neither starts nor ends with one, and some spaces |
| Attribution.ValidateMetadata | mizan-go/usage.go:207-271 | metadata is valid exactly within these bounds, field by field |
| Attribution.ConsumeOtherProviderCharge | mizan-go/usage.go:446-483 | builds the specified request and leaves the caller's object as it was; each evidence field is the normalised argument of its own name, the charge settles in SAR at the original amount or names its FX rule, and every other field is the caller's |
| Attribution.ChargesExactly | mizan-go/usage.go:446-483 | exactly which charges build a request: the caller's metadata is valid under the explicit identity and the evidence is complete, exact and short enough |
| Attribution.RebuildingChargeIsIdentity | mizan-go/usage.go:446-483 | a built request rebuilt from its own arguments and metadata is itself |
| Attribution.RebuildingConversationIsIdentity | mizan-go/usage.go:331-336 | merging a conversation identity twice is merging it once, and touches nothing else |
| Attribution.ProviderMetadataPython | mizan-python/src/mizan/builders.py:175-187 | the merged dict carries the stripped explicit identity over a valid caller dict |
| Attribution.OtherProviderCharge | mizan-python/src/mizan/builders.py:290-319 | the Python builder, in its own order of checks, builds the specified request |
| Attribution.PythonChargesExactly | mizan-python/src/mizan/builders.py:290-319 | exactly which charges build a request in Python, each evidence entry being the normalised argument of its own name |
| Attribution.RebuildingPythonCharge | mizan-python/src/mizan/builders.py:290-319 | a built Python request rebuilds itself exactly when its provider identity is at most 512 characters long |
| Attribution.LongProviderIsNotRebuilt | mizan-python/src/mizan/builders.py:307-319 | a provider name of 513 characters builds a request whose own metadata no builder accepts |
| Attribution.CountUsage | mizan-python/src/mizan/builders.py:160-172 | the counted request exists exactly when event, quantity and metadata pass, and carries them unchanged |
| Attribution.Conversation24H | mizan-python/src/mizan/builders.py:196-211 | explicit identity wins, the quantity is one, and no merged dict fails the second check |

## Left out

- HTTP, TLS, sockets, URL escaping, header plumbing, the Fiber and FastAPI adapters: an attempt is one outcome value, a request its bearer verdict, trimmed outbox header and raw body.
- What the HTTP libraries do below one attempt (connection reuse, redirects, net/http resending a request that carries an idempotency key): the server sees the same key and body again, which the replay assumption covers.
- Bearer comparison in constant time, header stripping, timestamps and time zones: a request is authorised or not, an event time valid or not.
- The Worker behind the API: only its idempotency store and its append-only ledger appear, as assumptions.
- SHA-256, the JSON grammar, SQLite internals, fsync and power loss: abstracted as listed above.
- Wrongly typed JSON values (null metadata, missing postings, unhashable fields, a truthy non-boolean `retryable`): records start decoded and well typed.
- A webhook body that Python's JSON parser gives up on with another exception than `JSONDecodeError` (an integer of more than 4300 digits, deep nesting): it leaves `receive` unanswered, and the adapter decides. JSON nested beyond Python's recursion limit but not beyond Go's is left out everywhere.
- Non-ASCII digits and spaces, invalid UTF-8 in outbox IDs: digits, trimming and upper-casing are over ASCII.
- Request construction and encoding errors before the first attempt: they depend on neither network nor server.
- Floating-point delays in Python, and their overflow beyond a thousand attempts: delays are exact integers of nanoseconds in both SDKs.
- The mutex as an object: `FileInbox.Persist` is one call at a time, and `InboxSteps` needs no mutex at all.
- `actor` and `attributes` in Python metadata: the dict model holds the string-valued fields; in Go both are modelled, an attribute by its printed form.
- Catalogue of thin client methods, enums, typed result models, aliases: tables without behaviour of their own.
