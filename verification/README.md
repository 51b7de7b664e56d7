# Lawang, verified

A Dafny model of the parts of Lawang that its delivery guarantees rest on, and proofs of those guarantees. Check all
of it with `dafny verify dfyconfig.toml`.

Lawang takes webhook changes in through one Postgres outbox and delivers them without a broker. A delivery is
accepted at the back of its queue (a tenant and an ordering key), a worker claims the queue's head under a lease
token, turns the body into records, links them into each entity's supersede chain, masks them, offers them to the
tenant's sink outside every transaction, and records what came back. Any worker can crash, and any lease can run out
and be taken over, between any two of those steps.

## How the model is laid out

| Modules | What they hold |
|---|---|
| `Names`, `Lists`, `Utf8` | identities, byte strings, decoding of UTF-8 as Go does it |
| `Queue`, `OutboxStore` | the rows of the outbox and the statements that move them; the outbox as an object, one method per transaction |
| `Versions`, `Ledger`, `LedgerStore` | the declared version orders; the supersede chains; the ledger as an object, with the loop of `Prepare` |
| `Drain`, `DrainTables`, `DrainWorkers`, `DrainHistory`, `DrainRecords`, `DrainTheorems` | the state machine of the whole drain, one event per committed transaction, its invariant, and what it gives |
| `Interleaving`, `InterleavingTxns`, `InterleavingCommit`, `InterleavingSteps`, `InterleavingMappings`, `InterleavingTheorems` | the same transactions run lock by lock, statement by statement and commit by commit, and the proof that this is the state machine again |
| `InterleavingWaits`, `Knots`, `InterleavingKnots`, `InterleavingDeadlock`, `Locks` | who can wait for whom, and exactly when transactions can be stuck |
| `RowOutcomes`, `Worker` | the worker's code over the two objects, from a claimed batch to its outcome, proved to follow the state machine |
| `Answers`, `HttpSink`, `Links`, `StubSink` | reading a sink's answer, and the two sinks |
| `Hub` | finding the one subscription a delivery belongs to |
| `RecordIds`, `ScopeIds`, `JsonNames`, `Surrogates`, `Clean`, `Iban`, `Mask` | the codecs and scanners |

`Drain` takes `seq` values from outside (an event names the place its row goes to); `Interleaving` draws them from a
sequence at the statement, before the commit, as the column default does. A record id is identified with the five
parts it is hashed from, which `RecordIds` proves the hash input determines; blake3 is taken to be collision free on
its input bytes, and the JSON encoding of a valid record to be a round trip. A regular expression is any function that
returns ascending, disjoint, non-empty matches inside the text. What a provider, a sink, a receiver, the clock and
the masker's texts answer are parameters, so every theorem is about all of their answers.

A method that changes tables is proved against a function of the tables, which is what the state machine is made of,
and also against a predicate of the columns before and after (the names end in `Leaves`, `Means` or `Says`) that calls
none of those functions.

The migrations state the one-head and the head-is-unfinished rules as constraints. Here they are not assumed: they are
part of the invariant, and proved.

## Model

| member | source | states |
|---|---|---|
| DrainTheorems.QueueInEveryRun | internal/outbox/outboxdb/queries.sql.go:484-496 | in every state of every run, a queue with unfinished rows has exactly one head, which is unfinished and has the lowest `seq` of them; nothing is stranded; at most one row of a queue is leased, and it is the head |
| DrainTheorems.FinishesInOrder | internal/outbox/outbox.go:646-659 | over every run the `seq` values at which the rows of one queue finish strictly increase, replayed rows included |
| DrainTheorems.LeaseIsExclusive | internal/outbox/outboxdb/queries.sql.go:56-72 | until a lease runs out, no event of anybody but its holder changes the row's lease or attempts |
| DrainTheorems.HeadCanBeClaimed | internal/outbox/outboxdb/queries.sql.go:86-91 | from every valid state the head of a busy queue can be claimed once its backoff and lease have passed, so no queue can be left where it cannot move |
| DrainTheorems.SupersededTokenIsInert | internal/outbox/outboxdb/queries.sql.go:307-314 | an event of a worker whose token is no longer on its row leaves rows, records and ledger exactly as they were |
| DrainTheorems.FinishIsExact | internal/outbox/outbox.go:589-609 | while the token stays on the row, what waits under it is what its holder offered; a finish makes refused records dead, the other offered ones delivered (each taken by the sink), and changes no other record |
| DrainTheorems.AttemptsAreCharged | internal/outbox/outboxdb/queries.sql.go:183-189 | in every reachable state a row's attempts are its claims less its halts and releases since its accept or last replay; a holder's claim carries that number; no work starts past the ladder's end |
| DrainTheorems.AbandonedOnlyAfterTheLadder | internal/worker/worker.go:333-346 | a row is abandoned only after two more claims than the ladder has waits were charged and not given back |
| DrainTheorems.RetriesRunOutOnlyAtTheEnd | internal/outbox/outbox.go:671-681 | a failure ends a row exactly when the charged attempts are one more than the ladder's waits |
| DrainTheorems.HaltsNeverKill | internal/outbox/outbox.go:624-633 | over every run, a row whose every claim that does not deliver it is halted or released is never dead, for every ladder |
| DrainTheorems.NothingIsLost | internal/worker/worker.go:363-446 | in every state of every run the ledger's ids and the ids stored under outbox rows are one set, each id under exactly one row, and a record marked delivered was taken by the sink |
| DrainTheorems.EveryRecordIsAccountedFor | internal/pipeline/pipeline.go:364-390 | a record of any delivery whose preparing committed is, from then on and in every later state of the run, stored under exactly one row, or held back by its entity's head, which is not older |
| DrainTheorems.NeverOfferedAgain | internal/outbox/outboxdb/queries.sql.go:439-444 | once a record is marked delivered, no batch read in any later state, from any row, contains it, replays included |
| DrainTheorems.ChainsInEveryRun | internal/pipeline/ledger.go:135-215 | in every state of every run each entity's ledger rows form one forward path with one head, and nothing admitted or held back as stale is newer than that head |
| InterleavingTheorems.InterleavingsAreRuns | internal/outbox/outbox.go:646-659 | the committed states of every interleaving of lock, statement and commit steps are, in order, states of one run of atomic events |
| InterleavingTheorems.HeadsInEveryInterleaving | internal/outbox/outboxdb/queries.sql.go:221-268 | in every interleaving, with Claim taking no lock, every committed state gives each busy queue exactly one head, its lowest unfinished row, leases only heads, and strands nothing |
| InterleavingTheorems.ChainsInEveryInterleaving | internal/pipeline/ledger.go:72-113 | concurrent Prepare transactions under entity locks keep every entity's chain one forward path with one head |
| InterleavingTheorems.NothingIsLostInEveryInterleaving | internal/outbox/outbox.go:489-523 | in every interleaving ledger and stored records are one set, stored once, and delivered means taken |
| InterleavingTheorems.NeverOfferedAgainInAnyInterleaving | internal/outbox/outbox.go:530-547 | in every interleaving a delivered record is in no batch read later |
| InterleavingTheorems.FinishesInOrderInEveryInterleaving | internal/outbox/outbox.go:646-659 | in every interleaving the rows of a queue finish in rising order |
| InterleavingCommit.CommitIsEvent | internal/outbox/outbox.go:578-609 | whatever fell between its statements, a transaction that commits does to the tables exactly what its atomic event does |
| InterleavingWaits.WritersNeverBlock | internal/outbox/outbox.go:646-659 | a transaction that has written a row of the outbox waits for no lock, row, record, delivery or mapping |
| InterleavingWaits.IssuedIsAbove | internal/pipeline/ledger.go:72-113 | a transaction that takes its locks in the order lockOrder returns issues only locks above all those it holds |
| InterleavingWaits.DeadlockIsAKnot | internal/pipeline/redact.go:93-113 | wherever transactions each wait for another of them, hash collisions of lock keys included, some deliveries in flight form a knot over the redaction map, and over nothing else |
| InterleavingWaits.NeverADeadlock | internal/pipeline/ledger.go:110-113 | in no interleaving are transactions stuck while the value lists of the deliveries in flight are not tangled |
| InterleavingWaits.OneOrderNeverDeadlocks | internal/pipeline/ledger.go:104-113 | if every delivery took its values in one common order, as it takes its locks, no interleaving would ever be stuck |
| InterleavingWaits.SomebodyCanGoOn | internal/pipeline/pipelinedb/queries.sql.go:177-244 | while the lists are not tangled, some open transaction is not waiting |
| InterleavingKnots.StickExactlyIfTangled | internal/pipeline/pipelinedb/queries.sql.go:250-259 | deliveries about to issue their upserts can come to wait for each other if and only if their lists, known before the first value is taken, are tangled |
| InterleavingKnots.TwoStickExactlyIfCrossed | internal/pipeline/redact.go:131-148 | two deliveries can if and only if they share a value and do not name the same shared value first |
| InterleavingDeadlock.TwoDeliveriesCanDeadlock | internal/pipeline/pipeline.go:364-390 | a run from the empty state to two Prepare transactions that hold a ledger row each and wait for each other, for any two crossed lists |
| InterleavingDeadlock.TwoAddressesCross | internal/pipeline/redact.go:93-106 | a text naming A then B and one naming B then A are crossed |
| Knots.PairTangled | internal/pipeline/redact.go:93-106 | two lists are tangled if and only if their first shared values differ |
| Knots.OneOrderUntangles | internal/pipeline/ledger.go:104-113 | lists that all rise in one order are never tangled, however many |
| Locks.LockOrder | internal/pipeline/ledger.go:110-113 | the order is strictly ascending and has the same keys |
| Locks.OrderIsOfTheSet | internal/pipeline/ledger.go:104-113 | two deliveries with the same keys take them in the same order, whatever order the database returned them in |
| Locks.HalvesAreDisjoint | internal/pipeline/pipelinedb/queries.sql.go:68-73 | a queue's key is negative and an entity's is not, for all 64-bit hashes |
| Locks.QueueLocksFirst | internal/pipeline/pipelinedb/queries.sql.go:208-230 | any ascending order puts every queue lock before every entity lock |
| Worker.WorkRow | internal/worker/worker.go:333-358 | from a claim, whatever provider, ledger and sink answer, the code leaves the rows, records and ledger that `RowOutcomes.WorkSays` gives column by column (parked past the ladder's end, retried if unreadable, prepared from what the ledger let through, then as the sink's answer says), without the lease changes nothing, and moves along the state machine |
| Worker.Once | internal/worker/worker.go:282-311 | a batch is claimed from the earliest due heads and leased to the moment asked for; a trail of tables leads from there to the end, each row up to the shutdown worked as `WorkRow` works it and each later one released with its attempt back; and no row of it is still leased to its claim |
| Worker.DeliverRecords | internal/worker/worker.go:471-541 | for the holder: no sink, a halt or a broken sink leaves the row in the state it was in, free, due after the pause and charged one less; a fault to retry or an answer that does not line up costs the ladder's delay, or the row at its end; nothing to offer, or an answer that lines up, delivers the row with the named records dead and the others delivered; for anybody else nothing changes |
| Worker.PrepareRow | internal/worker/worker.go:405-446 | ledger rows, prepared records and the row's state commit together or not at all; a lost lease or an error leaves everything as it was |
| Worker.HolderOffersWhatWaits | internal/outbox/outbox.go:530-547 | in every reachable state a holder about to finish offered exactly what waits under its row |
| RowOutcomes.WorkedState | internal/worker/worker.go:471-541 | the row is delivered if and only if its records were ready and nothing was offered or the answer lined up; dead if and only if parked or failed at the ladder's end; charged back if and only if paused |
| RowOutcomes.AnswerMeans | internal/worker/worker.go:471-541 | what each answer of the sink leaves of state, lease, next attempt, attempts, marker and records, column by column |
| RowOutcomes.WorkedMeans | internal/worker/worker.go:333-446 | the same of a whole row's work, from what the claim, the body, the ledger, masking and the stored records come to |
| RowOutcomes.EachRowByItself | internal/worker/worker.go:282-295 | the rows of a batch do not touch each other: until its own step each is as it was claimed, and afterwards it stays as its step left it |
| RowOutcomes.ClaimedApart | internal/outbox/outboxdb/queries.sql.go:56-72 | rows claimed together are of different queues |
| RowOutcomes.WorkedRecords | internal/worker/worker.go:471-541 | a waiting record ends dead if the sink named it and delivered if not, exactly when the row is delivered; otherwise it waits on |
| RowOutcomes.WorkedLeases | internal/worker/worker.go:664-728 | nobody gains a lease, and the worker's own is given up unless its pause is refused |
| RowOutcomes.WorkedFrame | internal/outbox/outbox.go:646-659 | work on a row changes no other queue and no other delivery's records |
| OutboxStore.Outbox.Accept | internal/outbox/outbox.go:152-188 | refused exactly for a bad ordering key or provider, nothing for a delivery already held, and otherwise one row behind every other of its queue, due now, uncharged, and head if and only if the queue is idle |
| OutboxStore.Outbox.Claim | internal/outbox/outbox.go:358-387 | the earliest due heads, each once, none due before one left out, all of them if fewer than asked for; each leased under one new token until now and the lease, not due again before then, and charged one attempt; every other row as it was |
| OutboxStore.ClaimMeans | internal/outbox/outboxdb/queries.sql.go:56-72 | a claim leases exactly the rows it hands out, each to the end of the lease asked for, and what it hands out is what the rows now say |
| OutboxStore.DueBeforeMeans | internal/outbox/outboxdb/queries.sql.go:65-68 | the order of the candidates is the order in which their backoffs and leases have run out, ties by place |
| OutboxStore.ClaimKeeps | internal/outbox/outboxdb/queries.sql.go:56-72 | a claim keeps the one-head, lease-on-head and fresh-counter invariants |
| OutboxStore.Outbox.PrepareIn | internal/outbox/outbox.go:489-523 | only for the holder of a pending row: prepared, with its records stored in order |
| OutboxStore.Outbox.PreparedRecords | internal/outbox/outbox.go:530-547 | exactly the waiting records, in their stored order |
| DrainRecords.WaitingAreListed | internal/outbox/outboxdb/queries.sql.go:439-444 | what is listed is every waiting record and no other, in the order in which they are stored |
| OutboxStore.Outbox.MarkDelivered | internal/outbox/outbox.go:578-609 | refused unless every refusal names a waiting record once and the row is held; then those are dead, the other waiting ones delivered, the row is delivered and free, and the marker is on the lowest unfinished row of its queue |
| OutboxStore.Outbox.MarkDead | internal/outbox/outbox.go:686-713 | the holder's row is dead and free, its records stay, and the marker is on the lowest unfinished row of its queue |
| OutboxStore.Outbox.Fail | internal/outbox/outbox.go:671-681 | for the holder at attempt n of the ladder's waits: the row is free, still in its state and charged, and not due before now and the n-th wait; at any other attempt it is dead and the marker moves on; for anybody else nothing changes |
| OutboxStore.FailMeans | internal/outbox/ladder.go:22-27 | the wait after attempt n is the ladder's n-th, for every ladder, and a row is dead exactly at an attempt that has none |
| OutboxStore.Outbox.Halt | internal/outbox/outbox.go:624-633 | the holder's row is free, in its state, not due before now and the pause, and charged one attempt less |
| OutboxStore.HolderWasCharged | internal/outbox/outboxdb/queries.sql.go:183-189 | for a held row the clamp at zero never bites |
| OutboxStore.Outbox.Release | internal/outbox/outbox.go:444-448 | the holder's row is free, due when it was, and charged one attempt less |
| OutboxStore.Outbox.Replay | internal/outbox/outbox.go:732-759 | exactly a dead row, or a delivered one with a dead record, goes behind every other row of its queue, due now and uncharged, prepared if it was prepared before, with its dead records waiting and no other record touched |
| OutboxStore.Outbox.StrandedKeys | internal/outbox/outbox.go:775-791 | the unfinished queues of the tenant that have no head |
| OutboxStore.LadderAccounts | internal/outbox/ladder.go:22-40 | a wait is scheduled for exactly the attempts the ladder does not end at, and the first attempt it cannot account for follows the one that finds it used up |
| OutboxStore.PromoteNextHead | internal/outbox/outboxdb/queries.sql.go:484-496 | the search finds the row the statement's subquery selects |
| Queue.FinishEndsRow | internal/outbox/outboxdb/queries.sql.go:484-496 | ending a row frees it, and afterwards a row of the queue is the head if and only if it is unfinished with nothing unfinished below it; no other column and no other queue changes |
| LedgerStore.RecordLedger.EntityHead | internal/pipeline/pipelinedb/queries.sql.go:36-49 | whichever head row the query returns is the chain's last |
| LedgerStore.RecordLedger.Admit | internal/pipeline/ledger.go:135-215 | over the record's row, its entity's head row and the order of their versions: prepared if and only if new and not older than the head, if there is one, stale if and only if new and older, unordered if and only if new and incomparable, scope-returned and skipped likewise for a known record; what is prepared is the entity's only head, superseding the one before, and nothing else is written |
| Ledger.DecideIsDecision | internal/pipeline/ledger.go:135-215 | each of the five decisions if and only if its condition on the table's rows and the two versions holds |
| Ledger.AdmittedOrHeldBack | internal/pipeline/pipeline.go:364-388 | every record of an admitted delivery was known, is prepared, or is held back by a head that is not older |
| Ledger.PreparedInOrder | internal/pipeline/pipeline.go:364-388 | what is prepared keeps the order of the delivery |
| LedgerStore.RecordLedger.Prepare | internal/pipeline/pipeline.go:364-388 | all of a delivery is admitted in order or none of it, with the stored links and with every decision counted, a refusal included; every record was known, is prepared or is held back, and the ledger grows by exactly what is prepared |
| Ledger.ChainShape | internal/pipeline/pipelinedb/queries.sql.go:115-120 | one head per entity, no row superseded twice, none superseding itself, versions never going back along a link, every other row superseded |
| Ledger.LinkRaises | internal/pipeline/ledger.go:165-215 | linking only ever moves a head to a version that is not older than anything decided before |
| Ledger.IsHeadTestIsRedundant | internal/pipeline/ledger.go:144-160 | leaving the `!isHead` test out changes no answer |
| Ledger.AdmitAllFrame | internal/pipeline/ledger.go:72-89 | a delivery reads and writes only the rows of its own entities |
| Versions.CompareIsByValue | internal/pipeline/ledger.go:255-357 | two versions compare exactly when the declared order reads both at one width, and then by the numbers or big-endian values they spell, of any length |
| Versions.CompareIsAnOrder | internal/pipeline/ledger.go:255-357 | reflexive, antisymmetric in sign and transitive on the pairs it accepts |
| Versions.Base64RoundTrip | internal/pipeline/ledger.go:313-346 | all four spellings (the alphabets of sections 4 and 5 of RFC 4648, padded or not) decode to the bytes they encode |
| Versions.LineBreaksChangeNothing | internal/pipeline/ledger.go:313-346 | line breaks inside a spelling change no answer |
| Answers.DeadRecords | internal/worker/worker.go:628-649 | an answer is read if and only if it names records of the batch, each once |
| Answers.AnswerSplitsTheBatch | internal/worker/worker.go:628-649 | taken and refused then partition the batch |
| HttpSink.Deliver | internal/sink/http.go:290-344 | every posted request, a faulted one included, has exactly the size added up, fits the limit and is answered as its reply says; on success they carry every record that can go, with its document, in order, the answer names exactly the records that cannot go and those refused in a request, and a record it does not name was taken by a 2xx reply that could be read; on a fault they carry the first of them and the last one met it |
| HttpSink.Send | internal/sink/http.go:385-437 | the body is the framed documents; a 2xx reply is as good as its body, a 422 refuses exactly the request's ids, 408, 429, every status outside 4xx and silence ask for another try, and every other 4xx halts |
| HttpSink.OutcomeMeans | internal/sink/http.go:573-603 | the same of the outcome function, status by status |
| HttpSink.SentInOrder | internal/sink/http.go:308-341 | what is sent is what can go, in the order of the records |
| HttpSink.AnswerNames | internal/sink/http.go:290-344 | an id is in the answer if and only if some record of it cannot go or some reply refuses it |
| HttpSink.RejectionsFrom | internal/sink/http.go:451-503 | a 2xx body is believed if and only if it is blank, empty, or lists records of the request each once; the first two refuse nothing and the list exactly what it names |
| HttpSink.BodyHasItsSize | internal/sink/http.go:385-394 | the running count is the length of the body |
| HttpSink.AnswerLinesUp | internal/sink/http.go:451-503 | with distinct ids, every successful answer names only offered records, each at most once, so deadRecords accepts it |
| Links.LeadsBack | internal/sink/stub.go:225-234 | the walk ends, and answers true if and only if the new link would close a cycle |
| StubSink.Held.Take | internal/sink/stub.go:189-215 | what is held keeps its content and its links stay acyclic; refused exactly for other content or a cycle |
| StubSink.Stub.Accept | internal/sink/stub.go:165-215 | nothing a tenant holds ever changes its content, and no other tenant's memory is touched |
| StubSink.Stub.Deliver | internal/sink/stub.go:109-138 | what the answer does not name is held, and the answer lines up with a batch of distinct ids |
| Hub.Accept | internal/hub/hub.go:191-269 | unreadable and ownerless exactly when they are, over the columns of the table; stored only for the one subscription, of all rows that could own it, that verifies, in the queue of provider, colon and subscription; ambiguous if and only if (of usable rows that answer) there are too many or two verify; and whenever there is one owner and every row is usable, stored for it |
| Hub.MatchesMeans | internal/hub/hubdb/queries.sql.go:68-76 | the union of the two queries selects exactly the provider's rows that agree on some key and disagree on none |
| Hub.OrderingKeyNamesOne | internal/hub/hub.go:640-642 | an ordering key gives back its provider and its subscription |
| Hub.OwnerIsUnique | internal/hub/hub.go:191-269 | no delivery could be stored for two owners, whatever the cut queries leave out and whatever order candidates are asked in |
| Hub.Candidates | internal/hub/hub.go:336-405 | cut queries and their deduplicated union decide correctly whether there are too many rows, and otherwise have all of them |
| Hub.VerifyAll | internal/hub/hub.go:529-552 | stopping at the second match loses nothing: none, exactly one, or more than one of all candidates |
| RecordIds.RecordIdNamesItsParts | internal/ids/ids.go:110-139 | ids minted from accepted parts are equal if and only if all five parts are |
| RecordIds.DeliveryIdNamesItsParts | internal/ids/ids.go:80-89 | delivery ids are equal if and only if provider and body are |
| RecordIds.MintRecordId | internal/ids/ids.go:110-139 | minted if and only if every part is accepted, from the five parts in order with a separator between them; otherwise the first bad part is what is refused |
| RecordIds.ReopenRestores | internal/record/record.go:466-485 | under its provider and tenant a stored record comes back exactly, sealed for that tenant |
| RecordIds.ReopensForOneTenant | internal/record/record.go:466-485 | a stored row reopens for one provider and one tenant |
| RecordIds.EditedDocumentIsRefused | internal/record/record.go:466-485 | a document edited in any sealed field reopens from its row for nobody |
| RecordIds.ReopenedIsMinted | internal/record/record.go:350-389 | what reopens has the id its parts mint, and the id, op and kind stored beside it |
| ScopeIds.ScopeId | internal/record/scope.go:45-78 | printed exactly when accepted, as provider, kind and escaped container, within 512 bytes |
| ScopeIds.ParseScopeId | internal/record/scope.go:87-105 | reads exactly the strings printing can produce, and gives back the scope they were printed from |
| ScopeIds.CheckScopeId | internal/record/scope.go:108-140 | accepts exactly the strings ScopeID can produce, over the unreserved set of section 2.3 of RFC 3986 |
| ScopeIds.SpelledOnce | internal/record/scope.go:45-78 | two scopes with one spelling are one scope |
| ScopeIds.EscapeMeans | internal/record/scope.go:142-148 | letters, digits, hyphen, period, underscore and tilde (section 2.3 of RFC 3986) stand for themselves, and any other byte is a percent sign and its two upper case hexadecimal digits |
| ScopeIds.ReadOfPrinted | internal/record/scope.go:87-105 | reading what was printed gives the scope back |
| JsonNames.CheckNoDuplicateNames | internal/record/decode.go:146-191 | over the tokens of any JSON values, refuses if and only if some object at some depth repeats a name |
| JsonNames.TwoValuesPass | internal/record/decode.go:144-146 | two values in a row pass |
| Surrogates.HasUnpairedSurrogate | internal/record/decode.go:200-232 | the skipping scan of any string agrees with reading its escapes (section 7 of RFC 8259) one by one |
| Surrogates.ReadingFindsUnpaired | internal/record/decode.go:193-199 | reading them one by one finds exactly a half without its other half |
| Clean.CleanWith | internal/record/clean.go:69-92 | the loop, with its shortcut for a string that may stay, is: decode; keep each of the first characters, or replace it if the rule refuses it; or, with no replacement, keep the first characters the rule allows, in order, none left out |
| Clean.CleanedMeans | internal/record/clean.go:69-92 | the same of the cleaning function, character by character |
| Clean.TrimmedMeans | internal/record/clean.go:48-48 | trimming takes off nothing but spaces at the two ends, and all of those |
| Clean.CheckString | internal/record/validate.go:190-215 | the first rule broken, in order, or none exactly if the string is permitted |
| Clean.RulesMean | internal/record/validate.go:168-188 | the code points each rule refuses, as intervals, each rule taking whatever a stricter one takes |
| Clean.CleanedIsPermitted | internal/record/clean.go:69-92 | what a cleaner returns, its checker accepts, for every byte string |
| Clean.CleaningIsExact | internal/record/clean.go:69-92 | cleaning again changes nothing, and a valid value is left alone |
| Clean.TitleIsExact | internal/record/clean.go:48-54 | the same of titles, up to the spaces at their ends |
| Clean.CleanTitle | internal/record/clean.go:48-48 | trimming after cleaning gives the trimmed clean title: refused characters are spaces, at most 1024 are kept, and only outer spaces are cut |
| Iban.Remainder | internal/pipeline/mask.go:267-288 | the running remainder is the fully expanded number modulo 97 (ISO 7064), for every length |
| Iban.ValidIban | internal/pipeline/mask.go:267-288 | true if and only if, without its spaces, it has the length and digits of an IBAN and that remainder is 1 |
| Mask.KeptResolves | internal/pipeline/mask.go:113-133 | kept spans are sorted, disjoint and in bounds, and every candidate is kept or overlaps a kept span that starts no later |
| Mask.FindSecrets | internal/pipeline/mask.go:113-133 | every span kept is a value to mask (what its kind's expression matches, of at most 512 bytes, on its own and valid where its kind asks for that), and every value to mask is kept or overlaps a kept one that starts before it, or where it does and is of an earlier kind |
| Mask.FoundMeans | internal/pipeline/mask.go:113-155 | what is found is exactly what is meant, for each of the three kinds |
| Mask.SpansMean | internal/pipeline/mask.go:113-133 | the greedy choice over the stable sort drops a value only for one that goes before it |
| Mask.AppendMatches | internal/pipeline/mask.go:138-155 | exactly the matches that are short enough, stand on their own where they must, and are what they look like |
| Mask.ValidPhone | internal/pipeline/mask.go:218-262 | over the maximal runs of digits in the text: with a plus 8 to 15 digits, without 9 to 15 in three runs, one of four digits, the first no year from 1900 to 2099 |
| Mask.GroupsAreRuns | internal/pipeline/mask.go:241-256 | the groups are the maximal runs of digits, in order, and every digit is in one |
| Mask.BoundedMeans | internal/pipeline/mask.go:164-181 | a match stands on its own if and only if no character beside it would make it part of a longer token |
| Mask.Apply | internal/pipeline/mask.go:310-332 | no token is an error, too long is an error exactly when the masked text has more characters than fit, and otherwise each token stands where its value was, everything between two values between their tokens, and nothing else |
| Mask.MaskedMeans | internal/pipeline/mask.go:310-332 | the masked text is as long as the tokens and the rest, with every token and every stretch between at its place |
| Mask.MaskingIsReversible | internal/pipeline/mask.go:310-332 | putting the values back at the replaced positions restores the text exactly |
| Mask.Wanted | internal/pipeline/redact.go:93-106 | what the upsert is given is every value once, in the order the titles and texts first name them |
| Mask.WantedIsEachOnce | internal/pipeline/redact.go:93-109 | that is exactly the set of values the delivery holds |
| Mask.MaskRecords | internal/pipeline/redact.go:93-127 | too many values refuse the whole delivery, the first record that cannot be masked says why, and otherwise every record is masked in place |

## Findings

What the proofs found that the code or its comments say otherwise.

- A deadlock between two deliveries. `lockEntities` and `LockEntityKey` order the advisory locks so that
  transactions queue instead of deadlocking (internal/pipeline/ledger.go:60-72,
  internal/pipeline/pipelinedb/queries.sql.go:177-244), and `InterleavingWaits.DeadlockIsAKnot` proves that neither
  those locks nor the outbox can ever close a circle of waits. But the same transaction then runs
  `UpsertRedactions` (internal/pipeline/pipelinedb/queries.sql.go:250-259), which locks the rows of `redaction_map` by
  tenant, kind and value in the order the texts name them (`Mask.Wanted`). Two deliveries of one tenant about two
  entities, one text naming A then B and the other B then A, can each hold one row and wait for the other
  (`InterleavingDeadlock.TwoDeliveriesCanDeadlock`). The exact condition, in terms of the lists alone, is
  `InterleavingKnots.StickExactlyIfTangled`; for two deliveries it is that the first value they share is not the same
  one in both (`TwoStickExactlyIfCrossed`). Sorting the values, as lockOrder sorts the keys, would rule it out
  (`InterleavingWaits.OneOrderNeverDeadlocks`). Postgres ends such a deadlock by aborting one of the two, and the row
  walks the retry ladder, so nothing is lost: an aborted transaction is an `Abort` step, which every other theorem
  allows at any point.
- The comment on `checkNoDuplicateNames` says that it refuses anything that is not a single JSON value
  (internal/record/decode.go:144-145). The loop ends at the end of the input and not at the end of the first value, so
  two values in a row pass (`JsonNames.TwoValuesPass`). The model follows the code; its caller decodes the document
  once more, which refuses them.

## Left out

- Park, the sentinel tenant and what row-level security hides: that a parked row is never claimed rests on checks of
  the tables and on roles, which are the server's.
- InterleavingWaits.DeadlockIsAKnot: the order in which one upsert takes its values is a parameter, so a plan that
  reorders them is covered, but two upserts of one delivery are not distinguished and the primary key over random
  tokens is taken never to collide.
- Worker.Once: the objects change only through this worker between its steps; that other workers may act in between is
  what `Drain` and `Interleaving` cover, and each transaction of the worker is proved without assuming that the lease
  is still held.
- Worker.WorkRow: a panic or a cancelled context inside a row is not a branch of the method; the row then keeps its
  lease, which is the `Lose` event of `Drain`.
- OutboxStore.Outbox.Claim: one atomic statement; candidates that are locked by another transaction and skipped are
  part of `Interleaving`, where a claim leases any due heads that are free.
- OutboxStore.Outbox.StrandedKeys: which keys a cut answer keeps is the database's collation and not stated.
- Hub.Candidates: which rows a cut query keeps is any choice of the right number.
- Hub.Accept: reading the delivery keys from the request and verifying a signature are parameters with every outcome.
- RecordIds.RecordIdNamesItsParts: about the hash input; that 128 bits of blake3 do not collide is assumed.
- JsonNames.CheckNoDuplicateNames: over the token stream; the grammar of JSON text is the standard library's.
- Mask.AppendMatches: over any matches a regular expression may return; what the three expressions match is not
  modelled.
- StubSink.Stub.Deliver: the strict decoder is any function that accepts no record without an id.
- HttpSink.Deliver: transport errors are one reply that never came, and what a fault's cause and detail say is not
  modelled.
- The redaction map's contents: `Mask` takes the tokens it answers as a parameter, and `Interleaving` its locks only.
- Normalization, hydration and the providers: what they return is a parameter of the worker.
- The texts of last_error and dead_reason, logging, metrics, timeouts and the wall clock.
- Configuration, vaults, cryptography, URL handling, the ClickUp client and its rate limiter.
