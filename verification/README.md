# Marcel Arch: a verified model

Marcel Arch decides whether an agent may execute an action, sets money aside for it, waits for a
human where a rule asks for one, runs the action, charges the ledger and records everything in a
hash-chained audit log. Four stores are involved and nothing locks them together: a SQL budget
ledger, a Redis cell per budget, a table of approvals, and the log.

This project models that protocol in Dafny and proves what it keeps under every interleaving.
`dafny verify dfyconfig.toml` checks all of it.

## How it is built

* `Protocol.dfy` is the service as one transition system (`ProtocolDispatch.dfy` takes its step
  function apart). A transaction holds locks and unique keys, at most one pending row and its
  pending audit entries; all of it becomes visible at commit. Readers see committed rows. A locked
  row, or a unique key somebody else has inserted and not committed, blocks. Redis commands are
  atomic, are never rolled back, and the environment may change any key between any two steps. Runs
  may die at any step. `return` inside `session.begin()` commits, an exception aborts.
* `ProtocolInvariant.dfy` states the invariant; `ProtocolStability.dfy`, `ProtocolSteps.dfy`,
  `ProtocolEvaluate.dfy`, `ProtocolExecute.dfy`, `ProtocolCommit.dfy` and `ProtocolRuns.dfy` prove
  it, one step of one program at a time: a step is proved from what its own run knows, and
  separately no step can invalidate what another run knows. `ProtocolHistory.dfy`,
  `ProtocolTheorems.dfy`, `ProtocolWaits.dfy`, `ProtocolCuts.dfy`, `ProtocolDates.dfy`,
  `ProtocolDenials.dfy`, `ProtocolAnswers.dfy`, `ProtocolProgress.dfy`, `ProtocolExamples.dfy` and
  `ProtocolCompletion.dfy` hold the results.
* `Events.dfy` and `Replay.dfy` define what an audit entry says and how the tables are read back out
  of the log; the decoding looks at nothing but the entry.
* `Governor.dfy` is the budget governor, as functions and as the classes that do the same in place;
  `GovernorRuns.dfy` is about runs of many reservers against one budget.
* `PolicyRules.dfy`, `PolicyProofs.dfy`, `PolicyMeaning.dfy` and `Engine.dfy` are the rule
  interpreter, its theorems, what the rules mean without it, and the engine object.
* `Json.dfy`, `JsonText.dfy`, `JsonParser.dfy` and `AuditChain.dfy` are canonical JSON, its plain
  form, the parser that inverts it, and the audit logger.
* `Services.dfy`, `Interceptor.dfy` and `ApiRouter.dfy` are the stores, the interceptor and the two
  writing API calls as objects, for calls that do not overlap. Within them the clock, the expiry of
  keys, the delivery of messages and the calls of reviewers during a wait remain nondeterministic.

The naive statement "the Redis cell is the limit minus what is consumed minus what is reserved" is
false of the code, because a release and a reset forget other holders.
`GovernorRuns.ReserveKeepsNaiveIff` and `GovernorRuns.NaiveIff` say exactly when each step keeps it,
`GovernorRuns.OverwriteRobustIff` that this is also exactly when it matters, and
`GovernorRuns.ReleaseForgetsHolders` is an example;
`Interceptor.AgentInterceptor.Execute` says what holds when runs do not overlap.
`Interceptor.AgentInterceptor.EvaluateOrWait` called on its own leaves its reservation in place, so
it ends with a cell that holds the amount and not with a coherent one.

## Assumptions

* PostgreSQL with row locks, read-committed visibility and blocking unique keys; the store returns
  what was written.
* Money is a whole number of 1/10000 units, the precision of the ledger columns and of request
  validation (`marcel/schemas.py:46`, `marcel/schemas.py:73`). The reservation script is taken to
  calculate exactly.
* One monotone clock is shared by all processes and by the event loop, and time may pass between any
  two readings of it. In the log a timestamp is the
  decimal text of its microseconds, and an amount is the decimal text of its units.
* Hash and signature are arbitrary functions. Where freedom from collisions is needed it is a
  hypothesis about the records at hand.
* Reading a decimal from a condition value and searching the serialised payload are arbitrary
  functions that do not see the requested amount.
* What the policy tables contribute to one decision is an input of the step in `Protocol`; `Engine`
  proves that the engine computes it.
* Generated identifiers are inputs, and an insertion needs one that is not in use.

Where the repository's own words and its code differ, the code is followed. Its README promises that
malformed policies fail closed. In the code a condition object with an unknown key makes its rule not
match (`marcel/core/engine.py:207-211`), and so does a list of actions, agents, tenants or tiers that
is no list of strings, or a payload comparison that is no object; a definition without `rules` has no
rules (`marcel/core/engine.py:184`). What closes is a definition, rule list, rule, effect or risk score
of the wrong shape (`marcel/core/engine.py:181-199`), which denies, or raises where an effect is a list
or an object, and an amount condition that is no number or a negative one, which raises: a rule's own
fields only once its condition holds, and an amount only once it is reached.
`PolicyProofs.MalformedPolicyAllows` gives three policies that do not close,
`PolicyProofs.MalformedRuleClosedIff` says which malformed rules do, and
`PolicyProofs.MalformedPoliciesCloseIff` the same of whole evaluations.

A resolution that comes too late writes EXPIRED and raises, so that the write is rolled back and the
row stays pending (`marcel/api/router.py:137-141`).
`ProtocolExamples.LateResolutionLeavesRowPending` is a run in which that happens, and
`ProtocolExamples.ResolutionCountsUnlessLate` says exactly when a resolution counts.

## Model

| member | source | states |
|---|---|---|
| `ProtocolRuns.InvariantHolds` | marcel/core/interceptor.py:57-216 | The invariant (chain, replay, ledger, approvals, history, exclusive locks, what every open run knows) holds after every sequence of arriving calls, program steps, deaths, clock ticks and arbitrary changes of Redis keys |
| `ProtocolRuns.DoKeeps` | marcel/core/interceptor.py:57-216 | Each single action keeps the invariant, whoever else is in the middle of what |
| `ProtocolTheorems.TablesAreReplay` | marcel/core/interceptor.py:192-209 | In every reachable state limit, consumed and version of each budget and key, agent, status, reviewer and comment of each approval equal the fold of the committed audit log, decoded from the entries themselves |
| `ProtocolTheorems.LedgerSafe` | marcel/core/engine.py:92-106 | With Redis changing arbitrarily between any two steps, consumed is exactly the sum of the completed amounts in the log and stays between 0 and the limit |
| `ProtocolTheorems.DecidedOnTheRecord` | marcel/api/router.py:131-148 | An expired, approved or rejected row has the entry that made it so, by the recorded reviewer and with the recorded comment; a late resolution leaves no trace |
| `ProtocolTheorems.ChainAlwaysVerifies` | marcel/security/audit.py:56-84 | Every reachable log passes `verify_chain`, with sequence numbers exactly 1 to n |
| `ProtocolTheorems.OneWriter` | marcel/models/database.py:80 | Entries not yet committed continue the committed head, and at most one transaction has any |
| `ProtocolTheorems.CreatorsSerialised` | marcel/core/interceptor.py:112-142 | A caller about to insert an approval row finds its idempotency key neither committed nor pending |
| `ProtocolTheorems.InsertNeverConflicts` | marcel/core/interceptor.py:133-140 | The insertion of an approval row goes through: the IntegrityError branch is unreachable |
| `ProtocolTheorems.OneRowPerKey` | marcel/models/database.py:94 | At most one approval row per idempotency key, in every reachable state |
| `ProtocolTheorems.OneKeyOneTransaction` | marcel/core/interceptor.py:75-80 | All callers with one key wait for the same transaction id, at whatever two points of a run |
| `ProtocolTheorems.DecidedInTime` | marcel/api/router.py:137-145 | Approved and rejected rows have resolved_at before expires_at, expired rows at or after it, pending rows have none, and CANCELLED is unreachable |
| `ProtocolTheorems.DecisionsAreFinal` | marcel/api/router.py:135-136 | A row with a terminal status never changes again in any continuation of the run |
| `ProtocolTheorems.MessagesSpeakOfDecidedRows` | marcel/api/router.py:150 | A resolution message, however late or often it is delivered, is about a row with a terminal status |
| `ProtocolTheorems.WaiterReadsFinalStatus` | marcel/core/interceptor.py:160-166 | The status a waiter answers with is the final status of its row, whether a message or a poll woke it |
| `ProtocolTheorems.WaitersAgree` | marcel/core/interceptor.py:148-182 | Two waiters for one row never answer with different statuses, at whatever two points of a run |
| `ProtocolWaits.HeardIsFinal` | marcel/core/interceptor.py:160-166 | Every status that any waiter ever answered with is terminal, is the status of its row and stays it |
| `ProtocolWaits.AnswersAgree` | marcel/core/interceptor.py:171-182 | Any two waiters of one row that answered, approvals included, answered with one status |
| `ProtocolWaits.AnswerFollowsStatus` | marcel/core/interceptor.py:171-182 | A waiter that read anything but an approval ends with the exception for that status; one that read an approval ends in none of the waiter's exceptions |
| `ProtocolCuts.EndedWaiterLeavesDecision` | marcel/core/interceptor.py:148-201 | However a run that waited for an approval has ended (timeout, refusal, return to the caller, refused late reservation, completed, failed or aborted afterwards), the row is terminal, unless at some action of the run it died while it waited, or inserted the entry of its expiry when another commit had taken its number or hash |
| `ProtocolCuts.CutOffIff` | marcel/core/interceptor.py:148-201 | Those two are the only causes and always are one: a wait ends unanswered by an exception if and only if the run contains such an action |
| `ProtocolCuts.RaisesIffOvertaken` | marcel/core/interceptor.py:154-201 | In every reachable state in which a run waits, from its first turn of the loop to the committed expiry, its step raises if and only if it inserts an entry whose number or hash is taken; no missing row and no refused actor name can end a wait |
| `ProtocolWaits.ApprovalStands` | marcel/core/interceptor.py:171-179 | A run that goes by an approval has an approved row of its key at every later point, and so has a decision returned to an API caller |
| `ProtocolTheorems.OperationsAreAuthorized` | marcel/core/interceptor.py:83-91 | The operation runs only after this run committed an entry that, read back, records an allow of exactly this intent, or records require_approval with the row of its key approved; and, when an amount is asked for, after this run was granted exactly that amount |
| `ProtocolDenials.OperationsInWords` | marcel/core/interceptor.py:61-91 | The same in the words of the log: an earlier committed entry of this run has the type `execution_intent_evaluated`, the intent that was executed, and under decision, outcome the text "allow", or "require_approval" with the row approved |
| `ProtocolDenials.DeniedNeverOperates` | marcel/core/interceptor.py:61-68 | A run that has committed an evaluation entry with the outcome text "deny" executes nothing, before or after |
| `ProtocolTheorems.AtMostOneOutcome` | marcel/core/interceptor.py:89-95 | Each run leaves at most one of `execution_completed` and `execution_failed`; before an entry is committed the run has executed the operation of exactly that intent, and it raised if and only if the entry says failed |
| `ProtocolTheorems.ChargesAreEarned` | marcel/core/interceptor.py:203-209 | Every amount that counts against a budget belongs to an operation that ran without raising, for that very budget and amount, authorised and with its amount granted before it ran |
| `ProtocolHistory.RunEvolves` | marcel/core/interceptor.py:57-216 | Of any two points of one run, the later has grown from the earlier: the log is an extension, rows keep key and expiry, terminal rows are untouched, happenings remain |
| `ProtocolProgress.SlotHolderCanStep` | marcel/core/interceptor.py:58-76 | Whoever has an audit entry pending never waits again, for anything |
| `ProtocolProgress.LockHolderCanProgress` | marcel/core/interceptor.py:203-209 | Whoever holds a row lock or a unique key can move, or waits for the audit slot, whose holder can move |
| `ProtocolProgress.NoDeadlock` | marcel/api/router.py:71-88 | In every reachable state, an unfinished run can step or somebody else with an open transaction can |
| `ProtocolProgress.TransactionsEnd` | marcel/core/interceptor.py:192-216 | Each step of a transaction lowers a bound of at most 13, and at 0 nothing is held |
| `ProtocolExamples.WaiterReachable` | marcel/core/interceptor.py:75-80 | A concrete run from the empty system to a waiter on a pending row |
| `ProtocolExamples.CancelledWaiterLeavesRowPending` | marcel/core/interceptor.py:167-169 | A concrete run in which a waiter is cancelled: the wait is cut off and the row stays pending |
| `ProtocolExamples.OvertakenWaiterLeavesRowPending` | marcel/core/interceptor.py:192-201 | A concrete run of two processes in which nobody dies: another commit takes the number of the expiry entry, the waiter ends by an exception and the row stays pending |
| `ProtocolExamples.LateResolutionLeavesRowPending` | marcel/api/router.py:137-141 | A concrete run in which a reviewer approves after the deadline: the row is locked and marked expired, the call raises, and afterwards the row is overdue and still pending |
| `ProtocolExamples.ResolutionCountsUnlessLate` | marcel/api/router.py:135-147 | A resolution that holds its row marks it as decided and goes on to record that if and only if the row is pending and not overdue; otherwise the call raises and every row is as it was |
| `ProtocolExamples.ExpiryCountsUnlessOvertaken` | marcel/core/interceptor.py:192-201 | The entry of an expiry goes in if and only if no record with its number or hash was committed since the head was read, and then the next step of the waiter, unless it dies there, commits the expiry; otherwise it ends by an exception and the row stays pending |
| `ProtocolCompletion.AllowedIntentCompletes` | marcel/core/interceptor.py:83-95 | A concrete run in which a plain intent is allowed: it is executed once, and the committed log is two entries, whose words are "allow" and `execution_completed`, both about this intent |
| `ProtocolAnswers.RouteAnswers` | marcel/core/interceptor.py:67-76 | From every reachable state, the decision that was written into the entry decides the way: a denial is answered, a call for approval goes to a reviewer, an allow is answered as it is if and only if its reservation is granted |
| `ProtocolAnswers.OperatesIffAllowed` | marcel/core/interceptor.py:83-90 | `execute` goes on to the operation if and only if the answer is an allow; it raises the denial if and only if it is a denial, and refuses what was not approved |
| `ProtocolAnswers.AllowedRunOperates` | marcel/core/interceptor.py:67-90 | Left alone, a run whose recorded allow gets its reservation has executed the operation four steps later |
| `ProtocolAnswers.ApprovedWaiterOperates` | marcel/core/interceptor.py:154-179 | Left alone, a waiter that polls before its deadline and finds the approval has executed the operation five steps later, six with an amount that the budget can honour |
| `ProtocolAnswers.RefusedWaiterAnswers` | marcel/core/interceptor.py:154-182 | Left alone, a waiter that polls before its deadline and finds a rejection or an expiry has answered with exactly that three steps later |
| `ProtocolAnswers.FigureReached` | marcel/core/engine.py:54-66 | Left alone, an evaluation is based on no figure without an active budget, else on the cell, else on what the ledger has left, with which it has then filled the cell |
| `ProtocolAnswers.DecisionAnswers` | marcel/core/engine.py:149-175 | The decision denies if and only if a policy does or there is no budget figure for an amount; it allows if and only if all policies do and the amount fits the figure |
| `ProtocolAnswers.ChargeAnswers` | marcel/core/engine.py:92-106 | A charge goes through if and only if the amount is positive, the budget active and the amount fits; it adds the amount to what is consumed and one to the version, and otherwise the run raises |
| `ProtocolAnswers.ExpiryAnswers` | marcel/core/interceptor.py:197-201 | The waiter marks the locked row expired at this time if it is pending, and leaves a decided one as it is |
| `ProtocolAnswers.FailureAnswers` | marcel/core/interceptor.py:211-216 | A failed operation overwrites the cell with what the ledger has left and goes on to its failure entry |
| `ProtocolAnswers.AppendAnswers` | marcel/security/audit.py:51-82 | The entry that is built for a purpose says, read back, exactly what that purpose is, in the right name and at the present time |
| `ProtocolAnswers.InsertAnswers` | marcel/security/audit.py:83-84 | An insertion waits exactly for somebody else's pending number, raises exactly on a number or hash that is committed, and otherwise adds the one entry and goes on where its purpose leads |
| `ProtocolDates.RowDueAfterTimeout` | marcel/core/interceptor.py:112-131 | Every approval row was created at a time at which the run looked its key up, and is due exactly the timeout after that |
| `ProtocolDates.PromptResolutionCounts` | marcel/api/router.py:137-147 | A reviewer who reaches a pending row less than the timeout after that lookup is never too late |
| `ProtocolEvaluate.RouteKeeps` | marcel/core/interceptor.py:67-75 | Deny, allow with its reservation, refusal of the reservation and the way to a reviewer each keep the invariant |
| `ProtocolEvaluate.HitlInsertKeeps` | marcel/core/interceptor.py:117-141 | Inserting the pending row and owing its `hitl_requested` entry keeps the invariant |
| `ProtocolEvaluate.WaitingKeeps` | marcel/core/interceptor.py:154-159 | Deadline, lost message, late message and poll each keep what the waiter knows |
| `ProtocolEvaluate.ApprovedReserveKeeps` | marcel/core/interceptor.py:172-179 | After an approval the run is authorised exactly when the reservation is granted |
| `ProtocolEvaluate.ExpireWriteKeeps` | marcel/core/interceptor.py:197-201 | Marking the locked row expired, or leaving a decided one alone, keeps the invariant |
| `ProtocolExecute.CommitChargeKeeps` | marcel/core/engine.py:98-106 | Charging the locked row keeps the invariant; a refused charge aborts |
| `ProtocolExecute.UpsertWriteKeeps` | marcel/api/router.py:80-85 | A new limit on a locked row keeps the invariant; one below what is consumed aborts |
| `ProtocolExecute.ResolveWriteKeeps` | marcel/api/router.py:135-147 | Approving, rejecting, refusing a decided row and raising on a late one each keep the invariant |
| `ProtocolExecute.AppendingKeeps` | marcel/security/audit.py:51-82 | A record built on the head as read, own pending entries included, is known to continue it |
| `ProtocolExecute.InsertingKeeps` | marcel/security/audit.py:83-84 | A record that waits for nobody and clashes with no committed one continues the log as it now stands; a clash aborts |
| `ProtocolCommit.CommitKeeps` | marcel/core/interceptor.py:203-209 | Making a transaction visible keeps the tables equal to the replay and everybody else's knowledge true |
| `ProtocolStability.LocalStable` | marcel/core/interceptor.py:57-216 | No step that respects a run's locks and its place in the log can invalidate what the run knows |
| `Events.EventReadsBack` | marcel/core/interceptor.py:61-66 | Every event of the service, intent and decision down to the last field, can be read back from the type and payload of its entry, by a decoder that names the outcome texts itself |
| `Events.EffectReadsBack` | marcel/core/interceptor.py:141-216 | The effect of an entry on the tables can be read back from its type, actor and payload |
| `Replay.ReplayOne` | marcel/core/interceptor.py:203-209 | Appending entries with one significant effect changes the replayed tables and the charged sums by exactly that effect |
| `Replay.SignificantSuffices` | marcel/core/interceptor.py:61-66 | Entries without effect can be dropped from a replay |
| `Governor.CommitKeepsCap` | marcel/core/engine.py:92-106 | A commit succeeds if and only if the amount is positive, the budget active and the amount fits, and each refusal has its exact cause; it adds the amount to consumed and one to version, touches nothing else and keeps 0 <= consumed <= limit |
| `Governor.ReserveMeans` | marcel/core/engine.py:68-90 | A reservation is granted if and only if the budget is active and the amount fits both the ledger and the cell, an absent cell counting as what the ledger has; the figure reported in every case, and the cell lowered by exactly the amount or left alone |
| `Governor.UpsertKeepsCap` | marcel/api/router.py:76-85 | A new limit is refused if and only if it is below what is consumed; it sets the limit, adds one to version and changes neither what is consumed nor whether the budget is active; a new budget starts at version 1 with nothing consumed |
| `Governor.Redis.EvalReserve` | marcel/core/engine.py:35-44 | The script as one atomic command: reply and new cell, all other cells unchanged |
| `Governor.TokenBucketGovernor.RemainingBudget` | marcel/core/engine.py:54-66 | Absent budget: no figure and no effect; otherwise the cell or a figure seeded from the ledger, and an exception only when the key vanished between the two reads |
| `Governor.TokenBucketGovernor.ReserveBudget` | marcel/core/engine.py:68-90 | Refuses on the ledger before it asks the script; what it returns and leaves in the cell, and nothing else |
| `Governor.TokenBucketGovernor.CommitBudget` | marcel/core/engine.py:92-106 | The row after a commit, or the row as it was and which check refused |
| `Governor.TokenBucketGovernor.ReleaseBudget` | marcel/core/engine.py:108-116 | The cell is overwritten with what the ledger has left, whatever else was reserved |
| `Governor.TokenBucketGovernor.Reset` | marcel/core/engine.py:118-121 | The cell is overwritten; a negative value is refused without effect |
| `GovernorRuns.EpochConservation` | marcel/core/engine.py:35-90 | Between two overwrites or expiries of a key, for every interleaving of reservers with however stale rows: stored value plus granted amounts is the opening value, and never negative |
| `GovernorRuns.BatchGuarantee` | marcel/core/engine.py:68-121 | Reservations granted with no overwrite or expiry between them, from however stale rows, can be committed or released in any order, and every commit passes the cap check, as long as nobody reserves and the limit is not cut; only a reserver that fills an absent key must not believe in more room than the ledger has |
| `GovernorRuns.AbsentCellSafeIff` | marcel/core/engine.py:74-85 | That condition is exact: on an absent key no amount can exceed the ledger if and only if the row that was read promises no more room than there is |
| `GovernorRuns.StaleSeedOvergrants` | marcel/core/engine.py:74-85 | A row read before a commit fills an absent key with room that is gone, and the granted reservation is refused at commit |
| `GovernorRuns.RobustToStaleIffBacked` | marcel/core/engine.py:68-90 | Further reservations from however stale rows can never exceed the ledger if and only if what is held and what the cell offers fit into the room together |
| `GovernorRuns.RobustIffHonest` | marcel/core/engine.py:68-90 | Further reservations from the row as it stands can never exceed the ledger if and only if nothing is left or the cell is honest about the holders |
| `GovernorRuns.OverwriteRobustIff` | marcel/core/engine.py:108-121 | From any account, over-granted ones included, after a commit or a new limit that goes through, a release or an expiry the holders are safe from further reservations if and only if nobody but the one who commits or releases held anything before |
| `GovernorRuns.ReserveKeepsNaiveIff` | marcel/core/engine.py:54-90 | A reservation or a look at the budget keeps the equation of cell and limit minus consumed minus reserved if and only if it does not fill an absent key, or fills it from the figure that the ledger has |
| `GovernorRuns.NaiveIff` | marcel/core/engine.py:108-121 | From any account, over-granted ones included, a commit or a new limit that goes through, cuts included, a release or an expiry leaves that equation true if and only if nobody else held anything |
| `GovernorRuns.ReleaseForgetsHolders` | marcel/core/engine.py:108-116 | Ten units, twelve promised: a release while another run holds a reservation lets a granted reservation fail at commit |
| `PolicyRules.EvaluatePolicy` | marcel/core/engine.py:179-204 | The loop over the rules returns the results in rule order, the malformed cases included, or the error of the first rule that raises |
| `PolicyMeaning.MatchesIff` | marcel/core/engine.py:206-252 | A condition holds if and only if it has known keys only, each of its lists is of strings and contains the value or the wildcard, the amount reaches the one threshold and exceeds the other, and its payload members fit; it raises if and only if a threshold that it reaches is no number or negative |
| `PolicyMeaning.PythonEqualIff` | marcel/core/engine.py:245-247 | Comparing payload values by canonical text is equality of the values: lists element by element, dicts in any order, booleans as the numbers 0 and 1 |
| `PolicyMeaning.RuleMeaning` | marcel/core/engine.py:187-203 | A rule contributes exactly the effect and the risk it names when its condition holds (deny and 50 when it names none), a denial of risk 100 when they cannot be understood, and nothing otherwise; it raises exactly by its condition or by an effect that is a list or an object |
| `PolicyMeaning.EvaluationMeans` | marcel/core/engine.py:135-177 | The whole evaluation, stated from the texts of the rules: refused without a permitted agent, raising exactly when some rule does, denied for an amount without currency, and otherwise the most severe of all that policies and budget call for, with the highest risk, all identifiers and the figure |
| `PolicyMeaning.RuleIsHeeded` | marcel/core/engine.py:187-203 | A well-formed rule that applies is heeded: "deny" (or no effect) denies or the evaluation raises, "require_approval" is at least that, the risk is not below the stated one and the policy is named |
| `PolicyMeaning.ReasonIsGiven` | marcel/core/engine.py:200-203 | The reason a rule that applies states is among the reasons of the decision |
| `PolicyProofs.DecisionIsJoin` | marcel/core/engine.py:143-175 | An evaluation raises if and only if some rule raises; otherwise outcome and risk are the join over everything that contributes, malformed rules included, and policy_ids are exactly the contributors, ascending |
| `PolicyProofs.OrderIndependent` | marcel/core/engine.py:143-204 | Outcome, risk, policy ids and whether it raises are unchanged by any permutation of policies and of rules in a policy |
| `PolicyProofs.StrengtheningNeverSoftens` | marcel/core/engine.py:143-204 | Adding rules or policies never makes the result less severe, nor the risk lower |
| `PolicyProofs.MatchesMonotone` | marcel/core/engine.py:206-243 | As the amount grows a condition moves only from no to yes to raising, through the order of short-circuiting |
| `PolicyProofs.AmountMonotone` | marcel/core/engine.py:135-243 | With all else fixed, a larger amount (absent counts as least) never lowers allow < require_approval < deny < error, nor the risk |
| `PolicyProofs.MalformedPolicyAllows` | marcel/core/engine.py:184-252 | Malformed policies do not all fail closed: a rule that denies everything with a misspelt condition key, one with a string where a list of actions belongs, and a definition with a misspelt `rules` each allow every admitted intent within its budget |
| `PolicyProofs.MalformedNeverHolds` | marcel/core/engine.py:206-252 | A condition that is no object, has an unknown key, a selector that is no list of strings, an amount that is no number or negative, or a payload comparison that is no object never holds, for any agent and intent; it is passed over, or raises, which only such an amount makes it do |
| `PolicyProofs.MalformedRuleClosedIff` | marcel/core/engine.py:187-252 | A rule malformed in its type, effect, risk score or any part of its condition denies or raises if and only if it is no object, or its condition is looked at and holds or raises; otherwise it contributes nothing |
| `PolicyProofs.AlarmFailsClosed` | marcel/core/engine.py:179-199 | A malformed definition or rule list, or a malformed rule of that kind, makes the whole evaluation deny or raise, whatever the other policies are |
| `PolicyProofs.InertRulesIgnored` | marcel/core/engine.py:184-252 | Removing rules whose condition can never hold or raise, policies with only such rules and definitions without `rules` changes neither outcome, risk, policy ids nor whether the evaluation raises |
| `PolicyProofs.MalformedPoliciesCloseIff` | marcel/core/engine.py:179-252 | When all policies are malformed, an admitted intent within its budget is denied or raises if some definition or rule list is malformed or some rule is noticed, and is allowed if not |
| `PolicyProofs.ReasonIsOnlyWording` | marcel/core/engine.py:200-203 | A `reason` that is no text only changes the wording: the rule raises and contributes as it would with any other |
| `Engine.DeterministicPolicyEngine.EvaluatePolicies` | marcel/core/engine.py:143-147 | The loop over the enabled policies collects all results in order, or the first error |
| `Engine.DeterministicPolicyEngine.EvaluateIntent` | marcel/core/engine.py:135-177 | The decision is the one the rules and the reported budget figure call for, where the figure is the cell or what the ledger has left; nothing but the cell of this budget is touched, and that only to seed it |
| `Json.CanonicalIgnoresInsertionOrder` | marcel/security/audit.py:22-23 | The text does not depend on the insertion order of keys at any depth |
| `JsonParser.CanonicalRoundTrip` | marcel/security/audit.py:22-23 | A parser after sections 4 to 7 of RFC 8259 recovers the value, up to key order, from its canonical text |
| `JsonParser.CanonicalInjective` | marcel/security/audit.py:22-23 | Two values without floats have the same text if and only if they are equal up to the order of keys, at every depth |
| `JsonText.CanonicalIsWritten` | marcel/security/audit.py:22-23 | The text is, character by character, the plain text of the value with its keys in order: `,` and `:` without spaces, and only quotes, backslashes and control characters escaped |
| `Json.BeforeIff` | marcel/security/audit.py:22-23 | Keys are ordered by code point: a prefix comes first, and otherwise the first difference decides |
| `AuditChain.AuditLogger.Append` | marcel/security/audit.py:43-86 | The stored log grows by exactly the sealed record and stays well linked, or a bad name leaves it as it was |
| `AuditChain.AuditLogger.VerifyChain` | marcel/security/audit.py:88-115 | Accepts exactly the well-linked logs and returns their length; otherwise names the first record at fault and the first check it fails |
| `AuditChain.FaultMeans` | marcel/security/audit.py:94-113 | Which error names which fault: the number is checked first, then the previous hash, the hash and the signature, and each error occurs exactly when its check is the first to fail |
| `AuditChain.SealLinks` | marcel/security/audit.py:56-82 | A record built on a well-linked log is a correct next record: number, previous hash, hash and signature |
| `AuditChain.PrefixWellLinked` | marcel/security/audit.py:88-115 | Every prefix of an accepted log is accepted |
| `AuditChain.MaterialDetermines` | marcel/security/audit.py:61-70 | The hashed text determines every field that goes into it |
| `AuditChain.HeadHashDeterminesHistory` | marcel/security/audit.py:61-115 | Two accepted logs with the same last entry hash agree in every hashed field and signature at every position, unless two of their records exhibit a hash collision |
| `Services.Store.FindByKey` | marcel/core/interceptor.py:113-116 | The lookup by idempotency key finds the row if there is one, and there is only one |
| `Services.Store.Append` | marcel/security/audit.py:51-84 | An entry is appended with the event's own type, actor and payload, or refused for the actor's name without effect |
| `Interceptor.AllowedIsGranted` | marcel/core/engine.py:149-157 | With coherent cells, an intent the engine allows gets its reservation and the ledger can honour it |
| `Interceptor.BudgetSilentIff` | marcel/core/engine.py:149-157 | With coherent cells the budget stands in the way of an intent if and only if the ledger cannot honour the amount; an exact fit passes |
| `Interceptor.AgentInterceptor.EvaluateAndRecord` | marcel/core/interceptor.py:60-66 | The decision and exactly one entry that, read back, records it; or an exception, with its cause, and no entry |
| `Interceptor.AgentInterceptor.ReserveAllowed` | marcel/core/interceptor.py:69-74 | The decision as it was, or the refusal, and the cell the script leaves |
| `Interceptor.AgentInterceptor.CreateOrGetHitl` | marcel/core/interceptor.py:112-142 | The row that has the key, with nothing changed, or one new pending row, created now, due exactly the timeout later, with no reviewer, comment or resolution time, and its entry |
| `Interceptor.AgentInterceptor.DecideIntent` | marcel/core/interceptor.py:57-76 | The first transaction: an exception has its cause and leaves tables and log as they were; otherwise the logged decision, no row unless an approval is asked for, the row it points to, and with coherent cells an allow that always holds its reservation |
| `Interceptor.AgentInterceptor.GetMessage` | marcel/core/interceptor.py:159-159 | No message means the confirmation was consumed or the timeout has passed; a message means the resolution was published |
| `Interceptor.AgentInterceptor.AwaitResolution` | marcel/core/interceptor.py:148-169 | The loop ends, by a lexicographic measure of pending confirmation and time to the deadline. Unless the deadline had passed before the first turn, the final status of the row determines the answer: an approval its reservation, a rejection the refusal, an expiry the expiry, its own one the timeout; a timeout needs the deadline |
| `Interceptor.AgentInterceptor.ResolutionDecision` | marcel/core/interceptor.py:171-182 | Approval with its reservation, denial after a refused one, or the exception for the status; the cell is touched only by the reservation |
| `Interceptor.AgentInterceptor.ExpireTransaction` | marcel/core/interceptor.py:192-201 | Only a pending row changes, to expired; a refused entry takes it back |
| `Interceptor.AgentInterceptor.CommitExecution` | marcel/core/interceptor.py:203-209 | Charge, reset and entry; a refused charge changes nothing, a refused entry takes back the charge but not the reset |
| `Interceptor.AgentInterceptor.RecordExecutionFailure` | marcel/core/interceptor.py:211-216 | The cell after the release and one `execution_failed` entry; the ledger is untouched |
| `Interceptor.AgentInterceptor.EvaluateOrWait` | marcel/core/interceptor.py:57-81 | The answer is determined: a denial as it was said, an allow as it was said or sent back for its reservation, after a wait what the final status of the row calls for; with coherent cells an allow stands and an approval is granted if and only if the ledger can honour it; every exception has its cause |
| `Interceptor.AgentInterceptor.Execute` | marcel/core/interceptor.py:83-95 | The operation runs if and only if the answer is an allow, and each exception says which answer it was. With coherent cells at the start an allowed intent is run, an approved one if and only if the ledger can honour it, one that was run and did not raise is charged and recorded, and the cells are coherent at the end, however the run ends |
| `Interceptor.CommitRestores` | marcel/core/interceptor.py:203-209 | A held reservation can always be charged, and charge and reset together make the cells coherent |
| `Interceptor.ReleaseRestores` | marcel/core/interceptor.py:211-216 | The release of the only reservation makes the cells coherent |
| `ApiRouter.Router.UpsertBudget` | marcel/api/router.py:69-89 | Every outcome with its exact condition; coherent cells stay so, and after a refused entry if and only if the limit is the old one |
| `ApiRouter.Router.ResolveHitl` | marcel/api/router.py:128-151 | Every outcome with its exact condition; a late resolution leaves the row pending, a success changes that one row, appends its entry and announces it |

## Left out

- ProtocolCuts.EndedWaiterLeavesDecision: promises nothing about the row when the run died while it waited or another commit overtook its expiry, because there the row may stay pending; `ProtocolExamples.CancelledWaiterLeavesRowPending` and `ProtocolExamples.OvertakenWaiterLeavesRowPending` show how.
- ProtocolTheorems.TablesAreReplay: covers the columns that the log records; risk score, reasons, timestamps and payload of an approval row are not in the replayed view.
- ProtocolTheorems.OperationsAreAuthorized: an approval is bound to its idempotency key and not to an amount, because the code does not compare the two (`marcel/core/interceptor.py:113-116`, `marcel/core/interceptor.py:173-176`).
- Governor.Redis.EvalReserve: exact integers stand for Lua doubles, so rounding, `tostring` and the truncation of numbers in script replies (`marcel/core/engine.py:35-44`) are not modelled.
- JsonParser.CanonicalInjective: values without floats; `default=str` for other Python objects is not modelled. Python also holds `True` equal to `1`, which have different texts; `PolicyRules.PythonEqual` is that equality, used where the code compares payload values.
- AuditChain.AuditLogger.Append: HMAC and SHA-256 are abstract and the length check of the key (`marcel/security/audit.py:27-30`) is not modelled.
- Interceptor.AgentInterceptor.Execute: database and connection failures are not modelled in the sequential objects; in `Protocol` they are deaths of a run at any step, and a commit that dies after its reset leaves the cell overwritten.
- Interceptor.AgentInterceptor.AwaitResolution: unsubscribing and closing the subscription have no effect here.
- The message on the requests channel (`marcel/core/interceptor.py:144-146`): nothing in the service reads it.
- Tables of agents and policies in `Protocol`: registering an agent and creating a policy are transactions that hold a unique name and append an entry, and the agent lookup of `upsert_budget` (`marcel/api/router.py:73-75`) is in `ApiRouter` only.
- SQLite, which has no row locks, and the calendar text of timestamps and the exponent form of decimals in payloads.
- Tokens, roles, settings, logging and HTTP wiring: no property of the protocol depends on them.
- `AgentInterceptor.wrap` (`marcel/core/interceptor.py:97-110`): it only forwards to `execute`.
- The text after `marcel/core/engine.py:258` and `marcel/security/audit.py:119`: a second, incomplete copy of the same code.
