# Verified model of the experiment's host-side bookkeeping

This project models, in Dafny, the host-side state machines of a metered multi-agent experiment: the dollar
admission journal, the token protocol and the canonical JSON of the model gateway, the native fleet ledger, the
reconciliation that closes an evaluation, the drivers that may die anywhere and be started again, write-once
evidence and at-most-once dispatch, route selection with its attempt index, the campaign controller, the session
registry with the evaluation handoff, the rate card, and the release arithmetic of the first six retry amendments.

`dafny verify dfyconfig.toml` checks all of it. Source cells are paths relative to the root of the repository.

## How the model is laid out

Objects that the program updates in place are classes (`Gateway`, `Envelope`, `Guard`, `Ledger`, `Driver`,
`Controller`, `SessionIdentities`, `Handoff`, `Directory`); their loops are loops with invariants. Each method is
proved against a function or predicate of the old state, and what the system promises is proved about those, over
whole runs. Concurrency is modelled as interleaved steps, one step for each lock region or durable write, so that a
run may stop or switch threads between any two of them. Crashes are a choice at every durable write. The methods of
`Driver`, `Controller` and `Handoff` ensure that their whole effect, wherever they raise or die, is a chain of such
steps (`Reaches`); invariants are proved along every run from the empty state, and never assumed of one.

What each operation accepts and answers is also stated without the functions that specify it, in terms of its inputs,
the tables or the files themselves (the results named `...Exactly`, and `SpendInForce`, `GatewayAnswers`,
`JsonStrictness`, `StockProgress` and `CampaignAnswers` as a whole).

Hypotheses are stated where they are used, and nowhere else:

- Digests are arbitrary functions. A lemma that needs them to be collision-free says so in its `requires`.
- Random identifiers (tokens, permits, slots) are parameters. Only a lemma that needs a new one to be new says so.
- The stores behind ports (execution backend, submission registry, broker, transport) are represented by a status
  for each request, with terminal states that never change.
- Clocks, the network and the answers of foreign calls are parameters over which every statement quantifies.

| module | what it holds |
|---|---|
| `Options`, `Outcomes`, `Sequences`, `Ordering` | optional values, refusals, facts about sequences, code-point order and sorting by key |
| `Numerals`, `JsonText`, `JsonParser`, `JsonRoundTrip`, `JsonTheorems`, `JsonPrefix`, `JsonObjects`, `JsonStrictness` | the canonical JSON printer and the unique-key parser |
| `GatewayTokens`, `GatewayServer`, `ModelGateway`, `GatewayRuns`, `GatewaySessions`, `GatewayAnswers` | the token tables, the gateway object, and its safety under interleaving |
| `GatewayRequest`, `GatewayCall` | the request that is sent upstream, and the life of one reservation |
| `SpendTypes`, `SpendBatch`, `SpendJournal`, `SpendHistory`, `SpendCeilings`, `SpendInForce`, `SpendEnvelope`, `SpendGuard` | the spend journal |
| `NativeAdmission` | the fleet ledger and the abstract fleet |
| `EvaluationClosure`, `EvaluationHandoff`, `HandoffService` | closing and releasing evaluations |
| `StockControl`, `StockDriver`, `StockProgress`, `ContinuationRunners`, `EvaluationRecovery`, `EvaluationContinuation` | restartable execution |
| `WriteOnce`, `ModalDispatch` | write-once files and at-most-once dispatch |
| `AttemptRecord`, `AttemptIndex`, `RouteSelection` | provider qualification |
| `RateCard`, `RetryChain`, `RetryWitnesses` | arithmetic of charges and releases |
| `CampaignSteps`, `CampaignRuns`, `CampaignTheorems`, `CampaignReopening`, `CampaignOrder`, `CampaignAnswers`, `CampaignController` | fan-out, resume and gated close of a campaign |
| `SessionRegistry` | session identities |

## Where the code differs from what one would expect

Each entry names the input or run that shows it, and the condition under which the expected property does hold.

- A decimal with exponent zero prints like an integer and is read back as one (`WholeDecimalChangesType`): a value
  comes back unchanged if and only if it holds none (`RoundTripIsExact`). A negative decimal zero with exponent zero
  changes its text when printed again (`MinusZeroIsNotStable`), and nothing else does (`PrintingIsStable`).
- Two overlapping revocations of one token can take a session name out of the index that a later token is active
  under (`OverlapBreaksSessions`, a run from the empty gateway); `DropSessionsExactly` says exactly when a removal does.
- Closing the gateway alongside a new issue makes the release of its request fail (`CloseRacesIssue`); clearing is
  safe if and only if nothing is in flight (`FinishCloseExactly`).
- When writing the stream headers raises, the call leaves its reservation undisposed, and only then (`DisposedOnce`).
- Inference settings may overwrite the pinned model; it survives if and only if they name no other (`ModelIsPinned`).
- A crash inside a retained batch document leaves a temporary file that closes the journal to everyone; nothing else
  that an authority does to its own journal can (`OwnEventsKeepOpen`, `OwnHistoryKeepsOpen`).
- A batch may lower the total ceiling, although no provider ceiling may fall (`TotalFallsInHistory`); as long as any
  operation can still be admitted, every next batch keeps the total in force exactly when it is no more than the
  provider ceilings add up to, or one more when they are used up (`TotalKeptExactly`).
- The closure accepts evidence in which two candidates share a reservation identifier, and then one of them may
  never have been run (`SharedReservationAccepted`; `CandidateRanExactly` for the condition).
- A line or paragraph separator inside an attempt record makes the index unreadable (`BrokenUnread`; exactly when a
  later state validates is `LaterStateValidates`).
- A driver that dies between its claim and the record of its answer blocks its series for good (`DeadClaimBlocks`,
  `StuckForever`; `LostClaimBlocks` and `SharedStuckForever` for many runners): nothing is spawned twice, but nothing
  after it is ever spawned either.
- A campaign can end twice: a snapshot taken before the close can be resumed and closed after it, or found invalid
  after it (`StaleSnapshotClosesAgain`, `StaleSnapshotSpoilsAfterClose`). The process that resumes it must be a new
  one, since the harness refuses an organisation that its process already has. A call of `close` is free of this if
  and only if the campaign has not ended and no other call is under way when it is made (`CloseIsSafeExactly`).
- A failed delivery that is overtaken by another job and then retried leaves its handle unable to close for ever
  (`RetriedHandleNeverCloses`), though a new process can resume from its snapshot and close. When all prepared jobs
  are complete, a handle can still come to close if and only if its delivered jobs are a prefix of the prepared ones
  (`CanStillCloseExactly`).
- The third retry amendment checks no provider, and recognises the first attempt's receipt only by a fixed run name.
  Accepted chains can therefore release more than their receipts cover (`ReusedIdentifierIsNotCovered`,
  `MisplacedIsNotCovered`, `FirstElsewhereIsNotCovered`); `CoveredExactly` says which ones do not.

## Model

| member | source | states |
|---|---|---|
| JsonTheorems.RoundTrip | src/agent_collab_evals/model_gateway.py:353-390 | every tree of null, booleans, integers, finite decimals, strings, lists and string-keyed objects prints, nothing else does, and parsing the text gives the tree back with keys in order and whole decimals as integers |
| JsonTheorems.RoundTripIsExact | src/agent_collab_evals/model_gateway.py:353-390 | the value itself comes back if and only if it holds no decimal whose exponent is zero |
| JsonTheorems.WholeDecimalChangesType | src/agent_collab_evals/model_gateway.py:362-381 | a client's 5e0 is read back as the integer 5 |
| JsonTheorems.PrintingIsStable | src/agent_collab_evals/model_gateway.py:362-390 | printing what was parsed gives the same text if and only if no decimal prints as "-0" |
| JsonTheorems.MinusZeroIsNotStable | src/agent_collab_evals/model_gateway.py:362-390 | the input that shows the failing side |
| JsonTheorems.SameIffCanonEqual | src/agent_collab_evals/model_gateway.py:382-386 | two values whose dictionaries are compared by key, and whose leaves by type and representation, are the same exactly when their key-ordered forms coincide |
| JsonTheorems.TextIdentifies | src/agent_collab_evals/model_gateway.py:370-390 | insertion order never shows in the text; without whole decimals, equal texts mean equal values |
| JsonTheorems.CanonicalSerializer | src/agent_collab_evals/canonical.py:21-76 | the serializer refuses exactly the values with a decimal, a float or a foreign object, and on the rest it round-trips and is injective |
| JsonTheorems.DigestIdentifies | src/agent_collab_evals/canonical.py:68-84 | under a collision-free digest, equal digests mean equal documents |
| JsonText.TextIsFlatCanon | src/agent_collab_evals/model_gateway.py:370-386 | sorting before writing is the same as writing the key-ordered value in stored order, at every depth |
| JsonText.EscapedExactly | src/agent_collab_evals/model_gateway.py:362-372 | which characters are escaped and how: the quotation mark, the backslash and the control characters, the latter by letter or by four lower-case hexadecimal digits, and nothing else |
| JsonText.TextsLook | src/agent_collab_evals/model_gateway.py:370-386 | the words, the brackets, commas and colons without spacing, and the smaller key first whatever the insertion order |
| Ordering.BelowExactly | src/agent_collab_evals/model_gateway.py:370-386 | one key sorts before another if and only if it is a proper prefix or has the smaller code point where they first differ |
| JsonRoundTrip.FlatParses | src/agent_collab_evals/model_gateway.py:362-390 | a printed value followed by anything that cannot continue a number is read as that value, and reading stops exactly at its end |
| JsonRoundTrip.StringScans | src/agent_collab_evals/model_gateway.py:362-372 | every string, whatever it escapes, is read back from its quoted form up to its closing quote |
| Numerals.ScanRoundTrip | src/agent_collab_evals/model_gateway.py:362-381 | a printed number is split into exactly its sign, integer, fraction and exponent groups |
| Numerals.DecimalRoundTrip | src/agent_collab_evals/model_gateway.py:375-381 | the printed decimal is a JSON number denoting the same sign, coefficient and exponent, and looks like an integer exactly when its exponent is zero |
| Numerals.DecimalTextExactly | src/agent_collab_evals/model_gateway.py:375-381 | the text of a decimal digit by digit: plain, with a point, after at most five zeros, or scientific, and from which exponent on |
| JsonObjects.AcceptedIsKeyed | src/agent_collab_evals/model_gateway.py:353-368 | no accepted text repeats a key in any object at any depth |
| JsonPrefix.CutObjectIsRejected | src/agent_collab_evals/canonical.py:36-40 | a printed object cut short anywhere is refused |
| JsonStrictness.NothingFollows | src/agent_collab_evals/model_gateway.py:353-368 | a printed value followed by more text is accepted, as that value, if and only if what follows is blank |
| JsonStrictness.NumbersAreWellFormed | src/agent_collab_evals/model_gateway.py:353-368 | no number with a leading zero, or without digits, is ever read |
| JsonStrictness.StringsAreRaw | src/agent_collab_evals/model_gateway.py:353-368 | no string with an unescaped control character is ever read |
| GatewayRequest.SentRequestIsPinned | src/agent_collab_evals/model_gateway.py:746-777 | the upstream reads one object in which every key has its wanted value as it reads back once printed, and the metered output limit is within the profile's |
| GatewayRequest.WantedExactly | src/agent_collab_evals/model_gateway.py:774-777 | the wanted value of a key is the inference setting, else the pinned routing or model, else what the client wrote |
| GatewayRequest.MeteredAsGiven | src/agent_collab_evals/model_gateway.py:757-777 | the call is metered under the very integer that the client gave as its one output limit, and under the profile's default when it gave none |
| GatewayRequest.SentExactly | src/agent_collab_evals/model_gateway.py:746-777 | a request is sent if and only if its length is in bounds, it is one object naming the profile's model with streaming on, it has at most one output limit, an integer from one to the default, and all that the upstream would find can be printed |
| GatewayRequest.ModelIsPinned | src/agent_collab_evals/model_gateway.py:774-777 | the upstream sees the profile's model exactly when the inference settings name no other |
| GatewayCall.ReceiveStream | src/agent_collab_evals/model_gateway.py:711-728 | what is received, what is served, and the exception named, when the loop stops at a chunk that raises, is not bytes, does not fit, or cannot be written |
| GatewayCall.HandleAuthorized | src/agent_collab_evals/model_gateway.py:641-744 | the disposal with its retained evidence, the served bytes and the error reply of a call, for every behaviour of the reader, the account, the upstream and the client |
| GatewayCall.ReleasedExactly | src/agent_collab_evals/model_gateway.py:682-694 | a reservation is released if and only if it was granted and the upstream definitely started nothing |
| GatewayCall.FailureIsForfeited | src/agent_collab_evals/model_gateway.py:684-710 | every other rejection or failure is one forfeit, whose evidence is the body, or else the text of the exception |
| GatewayCall.RepliesExactly | src/agent_collab_evals/model_gateway.py:646-710 | which calls get an error reply, and with which status: 400, 402, the upstream's own client error, or 502 |
| GatewayCall.SettlesExactly | src/agent_collab_evals/model_gateway.py:711-744 | a stream settles if and only if it is all bytes, within the bound, written to its end and holds a valid receipt, and then with all of it |
| GatewayCall.BreakIsNamed | src/agent_collab_evals/model_gateway.py:714-728 | the first chunk that stops a stream decides what is served, which bytes are retained and which exception the evidence names |
| GatewayCall.DisposedOnce | src/agent_collab_evals/model_gateway.py:681-744 | a reservation is disposed of exactly once, except that it never is when writing the stream headers raises |
| GatewayCall.StreamAccounts | src/agent_collab_evals/model_gateway.py:711-744 | never more than the bound is received or served, the client is served a prefix of what is retained, a stream settles if and only if it was received and written to its end with a valid receipt, and the evidence of a broken one ends with the exception that broke it |
| GatewayServer.Gateway.constructor | src/agent_collab_evals/model_gateway.py:412-462 | the tables start empty |
| GatewayServer.Gateway.IssueToken | src/agent_collab_evals/model_gateway.py:514-522 | registers a token in both indices, or refuses a duplicate and changes nothing |
| GatewayServer.Gateway.ActivateToken | src/agent_collab_evals/model_gateway.py:524-535 | binds token and session to each other, or refuses and changes nothing |
| GatewayServer.Gateway.AuthorizeRequest | src/agent_collab_evals/model_gateway.py:883-907 | counts one request on an active, unrevoked token of the expected identifier, or denies and changes nothing |
| GatewayAnswers.AdmittedExactly | src/agent_collab_evals/model_gateway.py:883-907 | a request is admitted if and only if its digest is that of a live token and it came over the open port or this token's own transport, and it runs under that token |
| GatewayAnswers.AdmittedOnOwnTransport | src/agent_collab_evals/model_gateway.py:883-907 | at every moment of every run a live token is admitted on the open port and on its own transport and on no other, and an unknown, unactivated or marked one on none |
| GatewayAnswers.RegisteredExactly | src/agent_collab_evals/model_gateway.py:514-535 | exactly a new identifier with a new digest is registered, and exactly a registered token without a session is activated, under a session not in use |
| GatewayAnswers.TokenLife | src/agent_collab_evals/model_gateway.py:514-552 | a token is denied until it is activated, admitted until its revocation begins, and denied from there on |
| GatewayAnswers.ReleasedExactly | src/agent_collab_evals/model_gateway.py:909-918 | the end of a request counts it out, and the two errors are raised for a token that is gone and for one that counts none |
| GatewayServer.Gateway.ReleaseRequest | src/agent_collab_evals/model_gateway.py:909-918 | takes the request off its token, with the two errors the code raises |
| GatewayServer.Gateway.BeginRevoke | src/agent_collab_evals/model_gateway.py:537-551 | marks the token, and drops it at once when nothing is in flight |
| GatewayServer.Gateway.ContinueRevoke | src/agent_collab_evals/model_gateway.py:546-551 | after a wakeup, waits again or drops the token |
| GatewayServer.Gateway.DropToken | src/agent_collab_evals/model_gateway.py:548-551 | the three removals that end a revocation |
| GatewayServer.Gateway.ClearTables | src/agent_collab_evals/model_gateway.py:559-562 | the three tables are emptied |
| ModelGateway.StepKeeps | src/agent_collab_evals/model_gateway.py:499-562 | from any state satisfying the invariant, no step of any thread reaches "token disappeared", "underflow" or a missing object, and the invariant holds after it |
| GatewayRuns.RunSafe | src/agent_collab_evals/model_gateway.py:499-562 | at every moment of every interleaving the two token indices are mutual inverses and every count is the number of requests inside its token |
| GatewayRuns.RevokedOnlyFalls | src/agent_collab_evals/model_gateway.py:545-547 | once a token is marked, the number of requests inside it never rises again: the measure of the wait |
| GatewayRuns.RevokedStaysQuiet | src/agent_collab_evals/model_gateway.py:537-552 | after a revocation gets past its wait, no request is ever in flight on its token |
| GatewayRuns.GoneStaysGone | src/agent_collab_evals/model_gateway.py:548-549 | a token that has left the table never comes back and never has a request inside |
| GatewayRuns.NoLostWakeup | src/agent_collab_evals/model_gateway.py:546-547 | a revoker sleeps only while a request is inside its token, and the end of any request wakes every sleeper |
| GatewayRuns.QuietResumeEnds | src/agent_collab_evals/model_gateway.py:546-551 | a woken revoker whose token is quiet does not sleep again |
| GatewayRuns.StepCovers | src/agent_collab_evals/model_gateway.py:554-562 | while nothing is issued alongside, a closer still has every registered token ahead of it, so it clears quiet tables |
| GatewayRuns.FinishCloseExactly | src/agent_collab_evals/model_gateway.py:559-562 | clearing the tables keeps the invariant if and only if nothing is in flight |
| GatewayRuns.CloseRacesIssue | src/agent_collab_evals/model_gateway.py:554-562 | a run in which a token issued during close makes a release fail |
| GatewaySessions.DropSessionsExactly | src/agent_collab_evals/model_gateway.py:548-551 | the end of a revocation keeps sessions and tokens in correspondence if and only if the token is still registered, had no session, or its session name is not in use |
| GatewaySessions.RunSessions | src/agent_collab_evals/model_gateway.py:524-552 | in every run without overlapping revocations of one token, sessions and active tokens correspond one to one |
| GatewaySessions.OverlapBreaksSessions | src/agent_collab_evals/model_gateway.py:499-552 | a run from the empty gateway, in which two revocations of one token overlap, ends with a token that is active under a session that the index no longer lists |
| SpendBatch.ValidateInventory | src/agent_collab_evals/pilot_spend_batch.py:26-44 | the loop accepts exactly the inventories whose operations are valid, in scope, new and pairwise distinct |
| SpendBatch.ProposeTotals | src/agent_collab_evals/pilot_spend_batch.py:26-44 | the loop adds the inventory to what is reserved, per provider |
| SpendBatch.ValidateBatch | src/agent_collab_evals/pilot_spend_batch.py:15-44 | a batch is accepted exactly when it pins this snapshot, lowers no provider ceiling, has a sound inventory, and fits |
| SpendBatch.DebitBatch | src/agent_collab_evals/pilot_spend_batch.py:57-88 | a batch is debited as a whole, and only when its admission is retained |
| SpendBatch.CheckBatch | src/agent_collab_evals/pilot_spend_batch.py:57-88 | an approval is accepted exactly when it is valid after its predecessors, new, and its retained documents are its own |
| SpendBatch.RunBatches | src/agent_collab_evals/pilot_spend_batch.py:57-88 | the loop accepts exactly the approval sequences each of whose members is accepted after its predecessors, and returns the snapshot they leave |
| SpendBatch.BatchesConserve | src/agent_collab_evals/pilot_spend_batch.py:57-88 | the snapshot holds the base and exactly the admitted batches, in receipts and in money, and no provider ceiling fell |
| SpendBatch.BatchesDistinct | src/agent_collab_evals/pilot_spend_batch.py:57-88 | operation keys are globally unique over base and batches |
| SpendBatch.BatchesBounded | src/agent_collab_evals/pilot_spend_batch.py:15-44 | no remaining amount is negative, and the total stays within the last approval's |
| SpendBatch.ApprovalFixesItsPast | src/agent_collab_evals/pilot_spend_batch.py:15-88 | under collision-free digests one approval, wherever and by whomever it is accepted, fixes the approvals before it, its place among them, and the receipts, money and ceilings that precede it |
| SpendInForce.BatchValidExactly | src/agent_collab_evals/pilot_spend_batch.py:15-44 | a batch is valid after a snapshot if and only if it pins it, lowers neither ceiling, lists new, distinct, valid operations under its own name, and fits, provider by provider and in total |
| SpendJournal.InsertionIsInvisible | src/agent_collab_evals/pilot_spend.py:209-314 | the ordered filter of prior receipts does not see a receipt inserted anywhere under another key |
| SpendJournal.DebitKeepsOpen | src/agent_collab_evals/pilot_spend.py:166-194 | a successful debit never makes a later snapshot fail, and raises the reserved money by exactly its amount |
| SpendJournal.ConstructKeepsSnapshot | src/agent_collab_evals/pilot_spend.py:38-156 | retaining the amendment changes nothing that a snapshot reports |
| SpendJournal.PriorIsOnFile | src/agent_collab_evals/pilot_spend.py:209-314 | every prior receipt of a retry is on file, so it is never debited again |
| SpendHistory.ApprovalDebitsNothing | src/agent_collab_evals/pilot_spend_batch.py:91-96 | a crash between approval and admission leaves the batch wholly undebited |
| SpendHistory.AdmissionDebitsAll | src/agent_collab_evals/pilot_spend.py:200-207 | a finished admission debits exactly its inventory on top of the snapshot it pins |
| SpendHistory.AdmissionCompletesOnce | src/agent_collab_evals/pilot_spend.py:200-207 | admitting again after a crash ends in the directory of an uninterrupted admission, and again changes nothing |
| SpendHistory.StepExtends | src/agent_collab_evals/pilot_spend.py:166-207 | every operation, wherever it crashes, only adds documents |
| SpendHistory.AppendOnly | src/agent_collab_evals/pilot_spend.py:166-207 | along any history under any authorities, with crashes anywhere, no retained document changes or vanishes |
| SpendHistory.OneReceiptPerOperation | src/agent_collab_evals/pilot_spend.py:166-194 | in every reachable directory no operation is debited twice |
| SpendHistory.SnapshotAccounts | src/agent_collab_evals/pilot_spend.py:209-323 | reserved less released stays within every provider limit and the total in force, and is exactly what is retained |
| SpendInForce.CeilingsInForce | src/agent_collab_evals/pilot_spend.py:36-137 | without batches a snapshot reports the plan's ceilings when nothing was amended, the last amendment's for chains up to ten, and the tenth's for longer ones, and the same document's total holds |
| SpendInForce.NextAmendmentInForce | src/agent_collab_evals/pilot_spend.py:36-137 | an amendment appended to a chain puts its own ceilings in force up to the tenth and changes none after it |
| SpendInForce.ReservedIs | src/agent_collab_evals/pilot_spend.py:284-314 | a snapshot reserves for each provider what the receipts on file add up to, less what the retry released |
| SpendInForce.InScopeExactly | src/agent_collab_evals/pilot_spend.py:172-178 | which operations belong to the retry in force |
| SpendInForce.DebitAdmittedExactly | src/agent_collab_evals/pilot_spend.py:166-194 | a debit succeeds if and only if the authority pins no batch, the journal opens, the record is valid and in scope, and it is on file already and may be, or there is room for it under its provider's ceiling and the total in force |
| SpendInForce.DebitAdds | src/agent_collab_evals/pilot_spend.py:166-194 | and then exactly its own file is added |
| SpendInForce.OpensExactly | src/agent_collab_evals/pilot_spend.py:209-314 | a journal without batches opens if and only if it holds this plan, the chain's amendments, and valid receipts, prior or in scope, whose sums stay within the ceilings in force |
| SpendInForce.ConstructLeaves | src/agent_collab_evals/pilot_spend.py:36-156 | what opening an envelope retains: the plan if it is valid and the same, and the last amendment in its own place if the journal opens |
| SpendInForce.AdmissionLeaves | src/agent_collab_evals/pilot_spend_batch.py:91-96 | what a finished admission retains: the approval, and an admission with its digest and inventory |
| SpendHistory.ReserveIsIdempotent | src/agent_collab_evals/pilot_spend.py:166-194 | a repeated reserve changes nothing, is refused without leave, and a different record under the same key is always refused |
| SpendHistory.OwnEventsKeepOpen | src/agent_collab_evals/pilot_spend.py:166-207 | an authority's own operation, wherever it crashes, leaves it a journal it can open if and only if no batch write was torn |
| SpendHistory.OwnHistoryKeepsOpen | src/agent_collab_evals/pilot_spend_batch.py:57-63 | the same over whole histories of one authority |
| SpendHistory.AmendmentFences | src/agent_collab_evals/pilot_spend.py:209-282 | a retained amendment shuts out, forever, every authority whose chain lacks it |
| SpendHistory.BatchFreezesBase | src/agent_collab_evals/pilot_spend_batch.py:57-63 | once any file exists below the batches the base journal never grows again, under any authority |
| SpendHistory.AgreedHistory | src/agent_collab_evals/pilot_spend_batch.py:57-88 | two authorities that can both open a journal agree on its approvals, plan, amendment and releases |
| SpendCeilings.TotalKeptExactly | src/agent_collab_evals/pilot_spend_batch.py:15-44 | whatever total is in force, and as long as any operation can still be admitted, every batch that can be accepted next keeps it if and only if it is no more than the provider ceilings add up to, or one more when they are used up |
| SpendCeilings.SequenceKeepsTotal | src/agent_collab_evals/pilot_spend_batch.py:57-88 | a total that the provider ceilings of the base add up to is kept by every approval of an accepted sequence |
| SpendCeilings.TotalFallsInHistory | src/agent_collab_evals/pilot_spend_batch.py:57-96 | every valid plan whose total exceeds the sum of its provider ceilings has a history from an empty directory after which a lower total is in force and an operation is debited under it |
| SpendEnvelope.ReadReceipts | src/agent_collab_evals/pilot_spend.py:284-299 | the loop over receipt files totals and collects them if all are valid under their own names |
| SpendEnvelope.Envelope.TakeSnapshot | src/agent_collab_evals/pilot_spend.py:209-323 | the snapshot, or a refusal, for every directory and authority |
| SpendEnvelope.Envelope.ReserveOperation | src/agent_collab_evals/pilot_spend.py:166-194 | the directory a debit leaves, and that a refusal leaves it alone |
| SpendEnvelope.Envelope.AdmitLastBatch | src/agent_collab_evals/pilot_spend.py:200-207 | the directory an admission leaves |
| SpendEnvelope.OpenEnvelope | src/agent_collab_evals/pilot_spend.py:38-156 | the plan is retained first, the journal validated, and only then the amendment retained |
| SpendGuard.Guard.DebitFirst | src/agent_collab_evals/pilot_spend_guard.py:40-47 | after a debit its receipt is on file, or nothing has changed |
| SpendGuard.Guard.Begin | src/agent_collab_evals/pilot_spend_guard.py:30-46 | the guards of a start and its two debits in order: the directory they leave wherever one is refused, and the run bound only when both base allowances are on file |
| SpendGuard.Guard.Authorize | src/agent_collab_evals/pilot_spend_guard.py:48-64 | no authority for another run, timeout or inventory, none before the debit of its own request is on file, and a debit whose issue fails stays |
| SpendGuard.DebitIsOnFile | src/agent_collab_evals/pilot_spend.py:166-194 | a successful reserve leaves its receipt on file and every earlier one where it was |
| SpendGuard.BeginsOnce | src/agent_collab_evals/pilot_spend_guard.py:36-46 | no automatic restart: once the first debit of an attempt is on file, then along any history any guard that begins the attempt again is refused and debits nothing |
| SpendGuard.AuthoritiesAreCovered | src/agent_collab_evals/pilot_spend_guard.py:48-64 | whenever the journal opens, the allowances behind all authorities issued for different requests, less what was released, are together within every provider ceiling and the total |
| SpendGuard.OwnDebitsAre | src/agent_collab_evals/pilot_spend_guard.py:40-60 | the provider, purpose and amount of each of the guard's debits |
| SpendGuard.OwnDebitsAreInScope | src/agent_collab_evals/pilot_spend_guard.py:34-60 | a guard that serves the run of the amendment in force never debits out of that amendment's scope |
| SpendGuard.OwnDebitsDiffer | src/agent_collab_evals/pilot_spend_guard.py:40-60 | different requests, and the two base allowances, are different operations |
| NativeAdmission.ReserveKeeps | src/agent_collab_evals/native_admission.py:62-90 | admission keeps at most N-1 slots, one active call and one child for each, no child in two |
| NativeAdmission.CompleteKeeps | src/agent_collab_evals/native_admission.py:92-113 | so does completion |
| NativeAdmission.FleetIsLawful | src/agent_collab_evals/native_admission.py:62-113 | a ledger with that invariant is a fleet: a one-to-one partial map from slots to children, with its busy slots |
| NativeAdmission.ReserveNewRefines | src/agent_collab_evals/native_admission.py:62-90 | a new child is admitted exactly when the fleet has a slot to spare, and takes a new one |
| NativeAdmission.ReserveKnownRefines | src/agent_collab_evals/native_admission.py:62-90 | a known child is admitted exactly when it owns a slot that is not busy |
| NativeAdmission.CompleteRefines | src/agent_collab_evals/native_admission.py:92-113 | a completion binds its slot to the child and frees it exactly when that keeps the fleet one-to-one |
| NativeAdmission.RunIsLawful | src/agent_collab_evals/native_admission.py:62-113 | every run of calls, refused ones included, ends in a lawful fleet |
| NativeAdmission.ReconciledIffFleet | src/agent_collab_evals/native_admission.py:115-134 | reconciliation is valid exactly when no slot is busy and the observed children correspond one to one with the slots |
| NativeAdmission.RepeatedCallIsRefused | src/agent_collab_evals/native_admission.py:62-75 | an empty or repeated call, an empty task and a repeated permit are refused |
| NativeAdmission.UnknownPermitIsRefused | src/agent_collab_evals/native_admission.py:92-100 | so is the completion of an unknown permit, or one that names no child or the primary |
| NativeAdmission.Ledger.constructor | src/agent_collab_evals/native_admission.py:46-60 | the table starts empty |
| NativeAdmission.Ledger.ReserveCall | src/agent_collab_evals/native_admission.py:62-90 | the row inserted, or a refusal that changes nothing |
| NativeAdmission.Ledger.CompleteCall | src/agent_collab_evals/native_admission.py:92-113 | the rows updated, or a refusal that changes nothing |
| NativeAdmission.Ledger.Reconcile | src/agent_collab_evals/native_admission.py:115-134 | the verdict and the unresolved permits |
| EvaluationClosure.Account | src/agent_collab_evals/solo_evaluation_closure.py:76-97 | one receipt passes exactly when the executions so far stay admissible with it, and the running totals follow |
| EvaluationClosure.AccountSource | src/agent_collab_evals/solo_evaluation_closure.py:74-97 | the inner loop, for all receipts of a source |
| EvaluationClosure.AccountAll | src/agent_collab_evals/solo_evaluation_closure.py:66-97 | the outer loop accepts exactly the sources that agree with their frozen requests and are jointly admissible |
| EvaluationClosure.Reconcile | src/agent_collab_evals/solo_evaluation_closure.py:36-105 | accepts exactly when roster, allowances, executions and accounting agree, and returns all receipts in order |
| EvaluationClosure.ReceiptsCoverFrozen | src/agent_collab_evals/solo_evaluation_closure.py:66-75 | the receipts are exactly the union of all frozen requests |
| EvaluationClosure.AcceptedConserves | src/agent_collab_evals/solo_evaluation_closure.py:36-105 | acceptance implies distinct receipts covering the frozen requests, one reference, each actor's use as accounted and within its allowance, and public and hidden use within the organisation's limits |
| EvaluationClosure.AdmissibleExactly | src/agent_collab_evals/solo_evaluation_closure.py:74-97 | executions pass the loop if and only if each completed within its frozen request, in the campaign or the visible reference, under its candidate's own artifact, and no two share a digest or a public reservation |
| EvaluationClosure.EveryReceiptCompleted | src/agent_collab_evals/solo_evaluation_closure.py:79-82 | in an accepted closure every receipt of every source is complete, with a use within the request that its source froze under its digest |
| EvaluationClosure.FailedReceiptRefuses | src/agent_collab_evals/solo_evaluation_closure.py:79-82 | one receipt that failed, states no use or used too much makes the reconciliation refuse |
| EvaluationClosure.EverySourceAgrees | src/agent_collab_evals/solo_evaluation_closure.py:66-75 | every source was enabled, resolved by its frozen backend, and its receipts and requests name each other |
| EvaluationClosure.UseIsReceipted | src/agent_collab_evals/solo_evaluation_closure.py:83-104 | what is accounted to each actor, and to the hidden side, is the sum of the seconds of the executions concerned |
| EvaluationClosure.OneReference | src/agent_collab_evals/solo_evaluation_closure.py:94-100 | exactly one execution is of the registered reference |
| EvaluationClosure.RosterExactly | src/agent_collab_evals/solo_evaluation_closure.py:36-62 | which rosters and accounts pass before the executions are looked at |
| EvaluationClosure.EveryCandidateRan | src/agent_collab_evals/solo_evaluation_closure.py:84-102 | with unique reservation identifiers every candidate was run in public under its own artifact exactly once |
| EvaluationClosure.CandidateRanExactly | src/agent_collab_evals/solo_evaluation_closure.py:64-102 | without that, a candidate was run if and only if the candidate kept by the lookup has the same artifact |
| EvaluationClosure.SharedReservationAccepted | src/agent_collab_evals/solo_evaluation_closure.py:64-102 | evidence that the closure accepts although one candidate was never run |
| StockControl.StepKeeps | src/agent_collab_evals/peer_stock_control.py:168-220 | from any state satisfying the invariant, no step of the driver, nor its death, breaks it |
| StockControl.SpawnedAtMostOnce | src/agent_collab_evals/peer_stock_control.py:168-220 | in every run from the untouched ledger, with deaths and restarts anywhere, no request is spawned twice |
| StockControl.Frontier | src/agent_collab_evals/peer_stock_control.py:168-189 | at every moment of every run the requests are a completed prefix spawned once each, at most one started one, then untouched and unspawned ones, and evidence exists only for the prefix |
| StockControl.OutcomeMeansComplete | src/agent_collab_evals/peer_stock_control.py:190-220 | in every run an outcome exists only when every request is complete, was spawned exactly once, and has its evidence retained |
| StockControl.StuckForever | src/agent_collab_evals/peer_stock_control.py:168-220 | a request that failed, is ambiguous or was abandoned after its claim stays so through every continuation of the run, in which nothing is spawned, no status changes and no outcome is written |
| StockControl.DeadClaimBlocks | src/agent_collab_evals/adapters/sqlite_execution_backend.py:77-198 | a driver that dies between its claim and its answer leaves such a request behind |
| StockProgress.SubmissionDecides | src/agent_collab_evals/adapters/sqlite_execution_backend.py:125-198 | a submission that is not cut short ends dispatched and spawned after a call, failed and not spawned after a definite rejection, and ambiguous after any other error |
| StockProgress.CanFinishExactly | src/agent_collab_evals/peer_stock_control.py:168-220 | from any moment of any run the series can still come to its outcome if and only if no request is blocked, nor about to be by an answer already held |
| StockControl.InvocationsAreRuns | src/agent_collab_evals/peer_stock_control.py:165-220 | any sequence of invocations, each leaving the ledger where a chain of steps leaves it, is one run from the untouched ledger, so the four results above hold of it |
| StockDriver.Driver.constructor | src/agent_collab_evals/peer_stock_control.py:96-165 | a new ledger has every request untouched |
| StockDriver.Driver.Submit | src/agent_collab_evals/adapters/sqlite_execution_backend.py:77-198 | the claim is durable before the transport is asked; whatever it answers and wherever the call dies, the effect is a chain of steps and only this request changes |
| StockDriver.Driver.CollectResult | src/agent_collab_evals/adapters/sqlite_execution_backend.py:200-280 | a dispatched request stays as it is while it runs and otherwise becomes terminal |
| StockDriver.Driver.Await | src/agent_collab_evals/peer_stock_control.py:177-181 | the wait ends with a request that is no longer dispatched, or with the deadline and the request still dispatched |
| StockDriver.Driver.SubmitIfFree | src/agent_collab_evals/peer_stock_control.py:170-176 | only a request that nobody has claimed is submitted |
| StockDriver.Driver.Retain | src/agent_collab_evals/peer_stock_control.py:187-189 | the evidence of a complete request is retained, unless the driver dies first |
| StockDriver.Driver.RunOne | src/agent_collab_evals/peer_stock_control.py:168-189 | a turn ends with the request complete and retained, or stops on it; a stuck request never lets it pass |
| StockDriver.Driver.Run | src/agent_collab_evals/peer_stock_control.py:165-220 | the whole loop, wherever it stops or dies, is a chain of steps; it ends normally only with the outcome written over complete and retained requests |
| EvaluationRecovery.PlanRecovery | src/agent_collab_evals/solo_evaluation_recovery.py:70-152 | the nested loops accept exactly when every request can be classified and the entries match the sealed inventory |
| EvaluationRecovery.ActionsDecide | src/agent_collab_evals/solo_evaluation_recovery.py:86-135 | a request is executed exactly when its authority was not consumed, and replaced exactly when its call ended in a retained environment rejection |
| EvaluationRecovery.ClassifiedExactly | src/agent_collab_evals/solo_evaluation_recovery.py:86-135 | the exact evidence for each of the three actions; everything else stops the plan |
| EvaluationRecovery.EntriesAreClassified | src/agent_collab_evals/solo_evaluation_recovery.py:70-135 | every entry of a plan carries the action that its own evidence decides |
| EvaluationRecovery.EveryRequestOnce | src/agent_collab_evals/solo_evaluation_recovery.py:136-152 | every request of the sealed inventory gets exactly one entry, under its own route |
| EvaluationContinuation.SlotsBiject | src/agent_collab_evals/solo_evaluation_continuation.py:32-88 | an accepted inventory pairs its twelve entries one to one with the twelve slots |
| EvaluationContinuation.SlotMeans | src/agent_collab_evals/solo_evaluation_continuation.py:32-44 | an entry in a slot has the adapter, the campaign and the end of the key that the slot's name says |
| EvaluationContinuation.QualityPartFound | src/agent_collab_evals/solo_evaluation_continuation.py:38-40 | every key that ends with a repetition and a role is given a part |
| ContinuationRunners.ActKeeps | src/agent_collab_evals/solo_evaluation_continuation.py:234-267 | no step of any runner breaks the ledger, or what any other runner knows of it |
| ContinuationRunners.SpawnedOnceByAll | src/agent_collab_evals/adapters/sqlite_execution_backend.py:77-198 | in every interleaving of any number of runners, which take no lock, no request is spawned twice |
| ContinuationRunners.ClaimIsKept | src/agent_collab_evals/adapters/sqlite_execution_backend.py:169-175 | a runner with an answer to its dispatch finds the request still dispatching and no other runner on it, so the error of an unexpected change of state is unreachable |
| ContinuationRunners.SharedFrontier | src/agent_collab_evals/solo_evaluation_continuation.py:234-267 | at every moment a completed, once-spawned prefix, at most one request under way, untouched ones after it, and no runner past it |
| ContinuationRunners.SharedOutcomeMeansComplete | src/agent_collab_evals/solo_evaluation_continuation.py:234-320 | an outcome exists only when every request is complete, was spawned exactly once and is retained |
| ContinuationRunners.SharedStuckForever | src/agent_collab_evals/solo_evaluation_continuation.py:234-267 | once a request is failed or uncertain and no runner is left to answer for it, no runner ever changes a status, spawns, or writes an outcome |
| ContinuationRunners.LostClaimBlocks | src/agent_collab_evals/adapters/sqlite_execution_backend.py:77-198 | a runner that dies with its claim leaves such a request, whatever the others do |
| ContinuationRunners.InvocationIsRace | src/agent_collab_evals/solo_evaluation_continuation.py:234-267 | what an undisturbed invocation leaves, from any ledger that a race reached, is reached by a race |
| EvaluationContinuation.AwaitSlot | src/agent_collab_evals/solo_evaluation_continuation.py:234-267 | polling ends with a terminal request, or with the deadline and the request still unfinished |
| EvaluationContinuation.RunSlot | src/agent_collab_evals/solo_evaluation_continuation.py:234-267 | a slot is passed only when its request is complete and retained |
| EvaluationContinuation.RunContinuation | src/agent_collab_evals/solo_evaluation_continuation.py:234-267 | one runner that nobody disturbs takes the six jobs in order; wherever it stops or dies its effect is a chain of driver steps, hence a race of the crowd |
| EvaluationContinuation.NeverReexecuted | src/agent_collab_evals/solo_evaluation_continuation.py:86-149 | for any number of continuation runners, interleaved and dying anywhere, recovery and continuation together execute every job at most once, except the one whose only source call ended in retained evidence of an environment rejection |
| WriteOnce.Directory.RetainBytes | src/agent_collab_evals/pilot_evidence.py:10-31 | undisturbed, it keeps the first content and succeeds exactly over its own |
| WriteOnce.RunSafe | src/agent_collab_evals/pilot_evidence.py:10-31 | under every interleaving and crash the destination is absent or holds one writer's full content |
| WriteOnce.WrittenOnce | src/agent_collab_evals/pilot_evidence.py:10-31 | once present it never changes |
| WriteOnce.ReturnsOverOwnContent | src/agent_collab_evals/pilot_evidence.py:10-31 | a writer returns normally only over its own content and raises only over another's |
| WriteOnce.LinkIsThePoint | src/agent_collab_evals/pilot_evidence.py:18-25 | each writer takes effect at its link as the atomic register would, and reports what the register answered there |
| WriteOnce.AloneReturnsExactly | src/agent_collab_evals/pilot_evidence.py:10-31 | a writer that nobody disturbs returns if the name is free or holds its own content, raises otherwise, and leaves no temporary file |
| ModalDispatch.StepKeeps | scripts/runtime/modal_paired_performance.py:37-84 | no step of any process breaks the agreement of intents, calls and retained documents |
| ModalDispatch.SpawnedAtMostOnce | scripts/runtime/modal_paired_performance.py:37-84 | for any number of racing and crashing processes a request is spawned at most once, after its authority was consumed |
| ModalDispatch.CollectsTheSpawnedCall | scripts/runtime/modal_paired_serving.py:51-91 | every collection uses the one call that was spawned for its request, and in the serving bridge for the same job and transport |
| ModalDispatch.AbandonedForever | scripts/runtime/modal_paired_serving.py:51-91 | once its dispatcher is dead a request is never spawned again and gains no document |
| ModalDispatch.DispatchIsCollected | scripts/runtime/modal_paired_serving.py:51-91 | an authorized request is dispatched, retained and collected by a run of two processes |
| ModalDispatch.CollectsExactly | scripts/runtime/modal_paired_serving.py:51-91 | which documents a process that is started to collect accepts, in either bridge |
| AttemptRecord.ReadsBack | scripts/preflight/retain_provider_qualification.py:86-113 | a record that the writer prints is read by the validator as itself |
| AttemptRecord.ReadExactly | src/agent_collab_evals/provider_qualification.py:1118-1150 | a document is read as a record if and only if it has exactly the writer's keys with that record's values and positive counts |
| AttemptRecord.CutLineUnread | scripts/preflight/retain_provider_qualification.py:86-113 | a record cut short anywhere is not a record |
| AttemptRecord.LineTextClean | scripts/preflight/retain_provider_qualification.py:86-113 | a printed record holds no control character, so no line feed or carriage return |
| AttemptIndex.MatchSnapshot | src/agent_collab_evals/provider_qualification.py:1108-1117 | the loop returns the first prefix at a line boundary with the pinned digest |
| AttemptIndex.RenderedLines | src/agent_collab_evals/provider_qualification.py:1118-1150 | the validator reads exactly the records that were written, in order |
| AttemptIndex.SnapshotFound | src/agent_collab_evals/provider_qualification.py:1105-1117 | every earlier state of the index is found again in every later one |
| AttemptIndex.BrokenUnread | src/agent_collab_evals/provider_qualification.py:1118-1124 | a separator inside any record makes the index unreadable |
| AttemptIndex.LaterStateValidates | src/agent_collab_evals/provider_qualification.py:1105-1181 | a record pinned to an earlier state validates against a later one if and only if no record holds a separator and start times never decrease |
| AttemptIndex.ValidatedMeans | src/agent_collab_evals/provider_qualification.py:1105-1181 | what a validated index says of the pinned qualification, of its prefix, of identifiers and of start times |
| AttemptIndex.LinesEndAt | src/agent_collab_evals/provider_qualification.py:1118-1124 | the ten characters at which text lines end |
| AttemptIndex.AppendExtends | scripts/preflight/retain_provider_qualification.py:86-113 | an append adds the record at the end, does nothing for a record that is there, and refuses another record under a known identifier |
| AttemptIndex.PinnedOverAppends | src/agent_collab_evals/provider_qualification.py:1105-1181 | after any sequence of appends the earlier index is a prefix of the file, and a record pinned to it validates if and only if the start times of the kept records never decrease |
| AttemptIndex.AppendAllRenders | scripts/preflight/retain_provider_qualification.py:86-113 | any sequence of appends leaves exactly the first record under each identifier, in order |
| AttemptIndex.SameRecord | scripts/preflight/retain_provider_qualification.py:92-105 | a line equals the writer's record only when it is the same record |
| RouteSelection.SelectRoute | src/agent_collab_evals/provider_qualification.py:504-537 | the loop splits the candidates, ranks the eligible ones and selects the first |
| RouteSelection.SelectsLeast | src/agent_collab_evals/provider_qualification.py:504-569 | a route is selected exactly when one is eligible, it is the least by cost and name, and the candidates are partitioned into eligible and rejected with reasons |
| RouteSelection.CostIsLeast | src/agent_collab_evals/provider_qualification.py:504-537 | the cost is the least whole number of nanodollars that covers the input tokens at the prompt price and the output tokens at the completion price |
| RouteSelection.ReasonsExactly | src/agent_collab_evals/provider_qualification.py:539-569 | each reason for a rejection is given if and only if its threshold is missed |
| RouteSelection.EligibleExactly | src/agent_collab_evals/provider_qualification.py:539-569 | a candidate is eligible if and only if it misses no threshold |
| RouteSelection.SelectionIgnoresOrder | src/agent_collab_evals/provider_qualification.py:504-537 | the selection with its evidence is the same for every order of the candidates |
| RouteSelection.TighteningIsMonotone | src/agent_collab_evals/provider_qualification.py:539-569 | under tighter thresholds no cheaper route is selected, and the old selection stays exactly when it still qualifies |
| RateCard.CeilDiv | src/agent_collab_evals/budget.py:28-29 | the least whole number of units that covers the numerator |
| RateCard.ChargeWithinReservation | src/agent_collab_evals/budget.py:69-98 | a call within its reserved bounds is charged more than it reserved only by a cost that the provider states |
| RateCard.RoundingDrift | src/agent_collab_evals/budget.py:85-98 | over any n metered calls the charges cover the exact cost and exceed it by at most n nanodollars |
| RateCard.DriftIsStrict | src/agent_collab_evals/budget.py:85-98 | the whole nanodollar is reached only by a call that costs nothing |
| RateCard.ChargeIsLeast | src/agent_collab_evals/budget.py:77-98 | a metered call is charged the least whole number of nanodollars, at least one, that covers its tokens at their three rates; a stated cost is charged as it is |
| RateCard.ReservationIsReached | src/agent_collab_evals/budget.py:69-76 | some call within the reserved bounds is charged all of the reservation |
| CampaignRuns.StepKeeps | src/agent_collab_evals/controller.py:78-347 | no step of the controller, in any interleaving of fan-outs, failures, resumes and calls of close, breaks the agreement of outbox, receipts, handles and log |
| CampaignRuns.PlayKeeps | src/agent_collab_evals/controller.py:78-347 | so it holds over every run, in which outbox, receipts, handles and log only grow |
| CampaignTheorems.NeverSentAgain | src/agent_collab_evals/controller.py:119-151 | in every run a recipient that has acknowledged a job keeps its receipt and is never sent the job again |
| CampaignTheorems.ReturnMeansAcknowledged | src/agent_collab_evals/controller.py:115-165 | when a delivery comes to its end the job is on the handle's list and every recipient has acknowledged it |
| CampaignTheorems.CompletedForever | src/agent_collab_evals/adapters/sqlite_delivery.py:187-227 | a complete job stays complete with every recipient's receipt, through failures, retries and resumes |
| CampaignTheorems.ResumeKeepsDelivered | src/agent_collab_evals/controller.py:189-220 | a delivered job stays on its handle's list, and every handle resumed at any later time lists it, once |
| CampaignTheorems.ClosedBehindGates | src/agent_collab_evals/controller.py:230-347 | before every closing entry in the log of any run stand the three gates of its handle, in order |
| CampaignTheorems.CloseIsSafeExactly | src/agent_collab_evals/controller.py:230-347 | a call of close that passes its checks can never lead to a second end of the campaign, closed or invalid, if and only if the campaign had not ended and no other call of close was under way when it was made |
| CampaignTheorems.CarefulRunsEndOnce | src/agent_collab_evals/controller.py:230-347 | in every run whose calls of close are all made so, the campaign is closed at most once and never both closed and invalid |
| CampaignTheorems.HandleEndsOnce | src/agent_collab_evals/controller.py:230-347 | when calls of close do not overlap, every handle ends at most once, closed or invalid |
| CampaignReopening.StaleSnapshotClosesAgain | src/agent_collab_evals/controller.py:167-220 | from every quiet reachable campaign that can be closed, closing it, resuming a snapshot taken before, and closing that, is a run that logs two closes |
| CampaignReopening.StaleSnapshotSpoilsAfterClose | src/agent_collab_evals/controller.py:167-308 | and in the same way a run that logs a close and then an invalid end |
| CampaignReopening.StartedCanClose | src/agent_collab_evals/controller.py:78-113 | every started campaign is such a one |
| CampaignOrder.OutOfOrderNeverCloses | src/agent_collab_evals/controller.py:230-260 | a handle whose delivered jobs are not a prefix of the prepared ones is refused by close now and in every continuation of the run |
| CampaignOrder.CatchUp | src/agent_collab_evals/controller.py:115-165 | a handle in order can be brought to close by delivering the missing jobs again, and nothing is sent on the way |
| CampaignOrder.CanStillCloseExactly | src/agent_collab_evals/controller.py:230-260 | once every prepared job is complete, an active handle can still come to close if and only if its delivered jobs are a prefix of the prepared ones |
| CampaignOrder.RetriedHandleNeverCloses | src/agent_collab_evals/controller.py:115-260 | the run that loses the order: a job whose delivery failed is overtaken by another and then retried; every call returns, the handle can never close, and one resumed from its snapshot can at once |
| CampaignAnswers.ClosesExactly | src/agent_collab_evals/controller.py:230-260 | the exact condition of the outbox gate, job by job and receipt by receipt, the runtime profile included |
| CampaignAnswers.ClosedLeaves | src/agent_collab_evals/controller.py:230-347 | what a close changes: the handle's status and four log entries, and nothing else |
| CampaignAnswers.PreparesExactly | src/agent_collab_evals/adapters/sqlite_delivery.py:48-125 | a job is prepared if and only if no job of the same identifier differs in digest or recipients |
| CampaignAnswers.ResumesExactly | src/agent_collab_evals/controller.py:189-220 | which snapshots are resumed, and that the new handle lists exactly the complete jobs in the order of the outbox |
| CampaignController.Controller.constructor | src/agent_collab_evals/controller.py:60-76 | an empty outbox and log |
| CampaignController.Controller.StartCampaign | src/agent_collab_evals/controller.py:78-113 | a new active handle with nothing delivered, for usable sessions only |
| CampaignController.Controller.ResumeCampaign | src/agent_collab_evals/controller.py:189-220 | accepts exactly an active snapshot whose jobs are all complete, unless the harness refuses, and takes the delivered jobs from the outbox |
| CampaignController.Controller.DeliverOne | src/agent_collab_evals/controller.py:126-139 | an acknowledged recipient is left alone; a normal return means acknowledged under this profile; the effect is a chain of steps wherever it dies |
| CampaignController.Controller.DeliverAll | src/agent_collab_evals/controller.py:141-151 | every recipient is attempted, and a normal return means all are acknowledged |
| CampaignController.Controller.DeliverJob | src/agent_collab_evals/controller.py:115-165 | a normal return means every recipient is acknowledged and the handle remembers the job once; other handles do not change; a refused job changes nothing |
| CampaignController.Controller.FinishDelivery | src/agent_collab_evals/adapters/sqlite_delivery.py:187-227 | the job is completed only when every recipient holds it |
| CampaignController.Controller.AnnounceDelivery | src/agent_collab_evals/controller.py:152-165 | the handle's list gains the job unless it is there, and the log gains one entry |
| CampaignController.Controller.CloseCampaign | src/agent_collab_evals/controller.py:230-347 | a normal return means outbox, budget and compute passed in order, and the log gained exactly the three gates and one closing entry; a refused call changes nothing; a failed gate leaves the handle invalid |
| CampaignController.Controller.CloseReconciled | src/agent_collab_evals/controller.py:258-347 | the rest of a close past the outbox: the three gates and the closing entry, or the handle left invalid |
| CampaignController.Controller.PassNext | src/agent_collab_evals/controller.py:260-342 | one gate, for the budget or for compute: it lets the call on, spoils the campaign, or the call dies at it |
| SessionRegistry.RevokeKeeps | src/agent_collab_evals/session_identity.py:79-90 | exactly a bound transport can be revoked, and the inconsistent-index error is unreachable |
| SessionRegistry.RunKeeps | src/agent_collab_evals/session_identity.py:21-90 | the two indices stay mutual inverses in every run |
| SessionRegistry.RevokedNeverResolves | src/agent_collab_evals/session_identity.py:41-90 | a revoked transport never resolves again, even when its address is reused |
| SessionRegistry.BindingLife | src/agent_collab_evals/session_identity.py:21-46 | exactly an unbound session is bound, and its transport resolves to its context from then on |
| SessionRegistry.WorkspaceLife | src/agent_collab_evals/session_identity.py:48-77 | a bound transport takes one workspace, again but never another |
| SessionRegistry.RevokedLife | src/agent_collab_evals/session_identity.py:79-90 | after a revocation nothing of the binding answers, and the session can be bound again |
| SessionRegistry.SessionIdentities.constructor | src/agent_collab_evals/session_identity.py:15-19 | the registry starts empty |
| SessionRegistry.SessionIdentities.BindTransport | src/agent_collab_evals/session_identity.py:21-39 | binds a new identity in both indices, or refuses a session that is bound |
| SessionRegistry.SessionIdentities.AssignWorkspace | src/agent_collab_evals/session_identity.py:48-67 | a bound transport gets one workspace, once and for all |
| SessionRegistry.SessionIdentities.RevokeBinding | src/agent_collab_evals/session_identity.py:79-90 | removes the binding, its session and its workspace together |
| EvaluationHandoff.StepKeeps | src/agent_collab_evals/solo_evaluation_handoff.py:37-69 | no step of any of the calls, and nothing that registry and broker do between them, breaks the release invariant |
| EvaluationHandoff.ReleasedMeansAllReady | src/agent_collab_evals/solo_evaluation_handoff.py:37-69 | at every moment of every run of any number of calls, from a store with nothing released: once any result is released, submissions are closed and every actor's candidate is complete with a verified result, then and in every continuation |
| EvaluationHandoff.ReturnMeansReleased | src/agent_collab_evals/solo_evaluation_handoff.py:62-69 | a call that has returned released every actor's result |
| EvaluationHandoff.RetriesAgree | src/agent_collab_evals/solo_evaluation_handoff.py:62-69 | any two calls of a run that return have returned the identical feedback job |
| EvaluationHandoff.ReleasedMeansEachReady | src/agent_collab_evals/solo_evaluation_handoff.py:37-69 | actor by actor: once any result is released each actor's candidate is complete with a verified result |
| EvaluationHandoff.FeedbackNames | src/agent_collab_evals/solo_evaluation_handoff.py:62-69 | what a returned job names, and that it passes a receipt on for a roster of one only |
| EvaluationHandoff.ReadyReturns | src/agent_collab_evals/solo_evaluation_handoff.py:37-69 | over a ready store an undisturbed call can always return |
| HandoffService.Handoff.constructor | src/agent_collab_evals/solo_evaluation_handoff.py:19-28 | a handoff over a store |
| HandoffService.Handoff.AwaitOthers | src/agent_collab_evals/solo_evaluation_handoff.py:30-69 | what others may do to the stores between two writes of ours |
| HandoffService.Handoff.Evaluate | src/agent_collab_evals/solo_evaluation_handoff.py:37-69 | a job is returned only when every actor's candidate is complete with a verified result and every actor is released; wherever the call raises or dies its effect is a chain of handoff steps |
| HandoffService.Handoff.CloseAndRelease | src/agent_collab_evals/solo_evaluation_handoff.py:49-69 | closing, the checks on what was closed, and the releases one by one, as a chain of steps |
| RetryChain.StepAccounts | src/agent_collab_evals/pilot_retry.py:709-828 | what an amendment gives back and leaves billed is exactly the receipts of its attempt, less the excess of a third settlement, plus what it draws on the first attempt's |
| RetryChain.AttemptsAccount | src/agent_collab_evals/pilot_retry.py:831-1278 | the same equality, summed along every accepted chain |
| RetryChain.SettledAmounts | src/agent_collab_evals/pilot_retry.py:709-828 | the nanodollars that each amendment gives back, and the receipts, providers and bills that it demands |
| RetryChain.RunsAreNew | src/agent_collab_evals/pilot_retry.py:709-828 | the run identifiers that each amendment may give |
| RetryChain.QualificationInBase | src/agent_collab_evals/pilot_retry.py:1016-1119 | the qualification receipt that two amendments release in part is one of the very first receipts |
| RetryChain.FirstInBase | src/agent_collab_evals/pilot_retry.py:1202-1213 | the third amendment finds the first attempt's compute receipt among that attempt's own, unless the first retry ran as "first-solo" |
| RetryChain.CoveredExactly | src/agent_collab_evals/pilot_retry.py:21-95 | an accepted chain keeps receipts less releases at or above what was billed with buffers and what the earlier receipts must keep, for each provider, if and only if the very first receipts and the excess of the third settlement hold what the amendments touch of that attempt |
| RetryChain.ReleasesAreCovered | src/agent_collab_evals/pilot_retry.py:21-95 | so every accepted chain is covered whose first receipts are positive, whose first compute receipt and third settlement are charged to the right providers, and whose first retry is not named "first-solo" |
| RetryChain.AuditedFirstSolo | src/agent_collab_evals/pilot_retry.py:21-95 | the last of these holds when the audit of the first attempt names "first-solo" |
| RetryWitnesses.ReusedIdentifierSettlesTwice | src/agent_collab_evals/pilot_retry.py:1202-1213 | when the first retry runs under the fixed name, the receipt found by the third amendment is one that the second has settled |
| RetryWitnesses.ReusedIdentifierIsNotCovered | src/agent_collab_evals/pilot_retry.py:1202-1213 | an accepted chain, right in everything else, whose first retry runs under the fixed name and which is not covered |
| RetryWitnesses.MisplacedIsNotCovered | src/agent_collab_evals/pilot_retry.py:1122-1213 | an accepted chain, right in everything else, whose third amendment settles receipts of the other provider and which is not covered |
| RetryWitnesses.FirstElsewhereIsNotCovered | src/agent_collab_evals/pilot_retry.py:1202-1213 | an accepted chain, right in everything else, whose first compute receipt is of the other provider and which is not covered |

## Left out

- JSON: lone surrogates are refused by the model, where the program keeps them until it encodes the text; recursion depth, the limit on digits of an integer and the range of a decimal context are not modelled; `_normalize` of dataclasses, enumerations and paths is not.
- JsonTheorems.SameIffCanonEqual: Python finds the decimal 5 equal to the integer 5, True equal to 1, and two decimals of one number equal; the model's comparison looks at type and representation, which is finer. The shared parser reads a fraction as a float, the model as a decimal; documents with either are refused where they are read.
- GatewayRequest.SentRequestIsPinned: the body is given as decoded text with its length in bytes; decoding is not modelled.
- GatewayCall.HandleAuthorized: whether the bytes received hold a valid usage receipt (`_provider_usage`) is a parameter, and of an exception of the account only that it ends the call is modelled.
- Gateway: state objects are named by the token identifier they were issued for instead of being heap references; Unix transports, HTTP handling and sockets are left out, and so is `candidate_gateway.py`, whose index invariants are those of the larger gateway.
- Spend journal: every exception is one refusal; of a retry amendment only the chain, the prior receipts, the releases, the ceilings and the permit inventory are modelled, the validation of its evidence being a parameter; the exact-key checks of the plan are left out.
- SpendGuard.Guard.Begin: whether the operator's authorization is current is a parameter, and the digests of what a debit is for are parameters of the guard; the checks of the pilot's limits and phase seconds when the guard is built are left out.
- SpendGuard.Guard.Authorize: likewise, and whether the inventory then issues the authority is a parameter.
- Native admission: the SQL table is a set of rows; the tools around it and the plan digest are left out.
- Evaluation closure: hidden resolution and selection before the snapshot are left to the registry.
- StockDriver.Driver.Run: authority expiry, the clean-build checks and exceptions of the backend are crashes; the deadline is a number of polls; the checks of the preparation before the loop are left out.
- EvaluationRecovery.PlanRecovery: whether files, manifests and resolved evidence agree is given for each request; row formats and the read-only database access are not modelled. The sealed inventory is keyed by request digest, as its table is, so sorting whole rows is sorting by digest.
- EvaluationContinuation.NeverReexecuted: that a call was delivered at most once in the source run, and only after its authority was consumed, is a hypothesis, which `ModalDispatch.SpawnedAtMostOnce` supplies for the bridges.
- EvaluationContinuation.RunContinuation: the method is one undisturbed runner, while the theorems of `ContinuationRunners` range over all interleavings; the admission before each slot and the checks of its result may stop the run anywhere; scores, gates and the closing document are left out.
- Attempt index: identifiers and times are strings, where the validator would convert other values to text.
- RouteSelection.SelectRoute: prices are exact numbers; the bounds that the loader sets on their digits are left out.
- CampaignController.Controller.DeliverAll: the method attempts recipients one after another, which is one interleaving of the parallel fan-out; the steps allow all of them, and the theorems range over the steps.
- CampaignController.Controller.ResumeCampaign: whether the harness accepts the snapshot is a parameter. It refuses an organisation or session that its process already has, and a stopped one, so a resume is the work of a new process; the steps allow every resume that controller and outbox allow, so what holds of all runs holds of these.
- CampaignController.Controller.CloseCampaign: the answers of the budget and compute gates are parameters; a failing event sink is a crash.
- EvaluationHandoff.ReleasedMeansAllReady: the registry and the broker may do anything that their contract allows (candidates are added, under receipts of their own, until submissions are closed; terminal statuses and verified results stay); that they do no more is a hypothesis.
- RetryChain.CoveredExactly: the amendments from the seventh on, the matching of billing rows and audits, and the files behind the evidence are left out; the order of receipts plays no part.
- Not modelled, as long lists of field checks or as operating-system plumbing: configuration and profile loaders, command lines, calibration and preflight scripts other than the attempt writer, sandbox wrappers, `session_launcher.py`, `artifact_service.py`, receipt shapes of `compute_backend.py`, `solo_evaluation_spend.py`.
