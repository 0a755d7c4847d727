# assayd: two crash-safe protocols and the promotions that rest on them

assayd is a Kubernetes operator. This project models, in Dafny, the three parts
of it that share one Agent's status, and proves what every run of them keeps:

- **The eval protocol.** A case is claimed under an optimistic lock with a
  nonce, sent, and recorded. `EvalSystem` runs any number of eval controllers
  beside the Agent reconciler over one stored Agent; every write carries the
  version it was made against, a response may be lost, and anybody may stop
  between any two steps.
- **Promotion.** `Gate` and `Rollout` are the gate branch, the pin step and the
  rollout switch; `SendPredicates` and `EvalPass` hold what the two controllers
  must agree on. `EvalCourse` says what each write leaves, exactly, and follows a
  run to its verdict and the promotion the gate then owes.
- **The `-auth` transaction machine.** `AuthMachine` takes a pass of the Agent
  reconciler one API operation at a time: Create, Lock (J2, K2 and the missing
  policy), refused Adopt, abandonment, re-creation and the closing write with
  its claims. Between any two operations the process may stop and the
  environment may delete, strip, edit, relabel or plant objects; cached reads
  may be stale. `AuthHistory` reads off a run's log what it comes to,
  `AuthSafety` is the invariant and `AuthTheorems` what it promises of every run.
  `AuthCourse` says which way a pass goes, both ways, at every operation;
  `AuthReach` gives runs that end where they should. `AuthPass` is the same loops
  as a class that updates its fields in place, proved turn by turn against the
  machine.
- **Smaller pieces.** `EvalLists` and `EvalRecord` are the list code and the
  verdict; `ReasonOrder` is which reason leads a condition; `Teardown` is the
  ordered teardown.

The state machines are total functions `Step(s, a)`; a run is a sequence of
actions from an initial state, and `Reachable` is what some run reaches. What no
controller reads (claims and requests made, promotions, a log of saves, reads,
credits and writes) is kept beside the state as history, and the safety results
are statements about that history. `hide` statements keep proofs small.

Assumed of the environment, as the operator's design states it: nobody else
writes backendRefs on `<agent>-serving`, nobody forges this Agent's UID label,
one Agent reconciler runs at a time, and nonces are not reused. Digests are
injective, so a suite stands for its own digest and a policy with the rendered
digest carries the UID label the digest covers.

## Where the code and its comments differ

- `appendPassed`'s comment says an entry can always be evicted. Its loop ends
  exactly when the new entry is the active revision's or at most ten of the
  entries it is given are (`EvictionEndsExactlyWhen`); `EvictionCanRunForever`
  gives an input it never returns from. The stored list's cap of ten excludes
  that input (`EvictionEndsWithinTheCap`), and every reachable run start returns
  (`RunStartReturns`).
- `reconcileServed`'s comment says a served API-key route is updated only after
  its policy was read present and intact in the same pass. The code updates it
  after reading some policy present: one at the name without this Agent's UID, or
  one the operator now renders differently, is left as it is and the route is
  updated all the same. `ServedRouteFollowsRead` states exactly what holds and
  `ServedRouteOverForeignPolicy` gives the runs on which the comment fails.

## Model

| member | source | states |
|---|---|---|
| `EvalLists.WithCase` | internal/controller/evalcontroller.go:1057-1067 | the list comes back sorted by id and means exactly one map update of what it meant |
| `EvalLists.RemovePassed` | internal/controller/evalcontroller.go:1042-1053 | the revision is gone and every other entry is kept |
| `EvalLists.AppendPassed` | internal/controller/evalcontroller.go:1028-1040 | on the inputs it returns from, the loop computes the bounded history, at most ten entries |
| `EvalLists.EvictionEndsExactlyWhen` | internal/controller/evalcontroller.go:1028-1040 | the eviction loop ends if and only if the new entry is the active revision's or at most ten entries of the list passed in are |
| `EvalLists.EvictionCanRunForever` | internal/controller/evalcontroller.go:1028-1040 | given eleven entries of the active revision and a new entry of another, the loop never returns, so "terminates on every input" is false |
| `EvalLists.EvictionEndsWithinTheCap` | api/v1alpha1/agent_types.go:845-853 | a list within the stored cap of ten is never such an input |
| `EvalLists.PassedHistory` | internal/controller/evalcontroller.go:1023-1040 | from a duplicate-free list of at most ten it stays so, the new entry is newest, the active revision's is never evicted, nothing leaves below the cap, and at the cap only the oldest entry of another inactive revision does |
| `EvalLists.FailedWith` | internal/controller/evalcontroller.go:1006-1016 | the new pair is last, every older one is kept below the cap, and at the cap exactly the nine newest |
| `EvalRecord.RecordOutcome` | internal/controller/evalcontroller.go:977-1004 | a new Failed verdict comes with its pair in failed[] and its revision out of passed[]; a new Passed one with every case recorded and the threshold met |
| `EvalRecord.FindWork` | internal/controller/evalcontroller.go:806-828 | a claim with no outcome comes first; otherwise the least id with no entry, everything before it recorded |
| `EvalRecord.OwedFalls` | internal/controller/evalcontroller.go:806-931 | two per missing case and one per case in flight strictly falls on every claim and every record |
| `EvalRecord.PassesIsTheFraction` | internal/evalsuite/threshold.go:55-60 | the integer comparison is the exact comparison of the fraction passed with the threshold, and no cases is no pass |
| `SendPredicates.NoMutualWait` | internal/controller/sendpredicates.go:153-185 | beside a J2 or K2 Lock at ProbingAfter the eval is admitted exactly when no 401 could be credited: never both, never neither |
| `SendPredicates.AdmitsExactly` | internal/controller/sendpredicates.go:135-185 | the slot admits the eval if and only if it is empty, a refused Adopt, or a Lock of what is not served at ProbingAfter that no 401 could end, spelled out on the record and the cards |
| `SendPredicates.CardRecordedExactly` | internal/controller/card.go:403-408 | a card is recorded exactly when the first entry of the revision has a digest |
| `SendPredicates.BeforeExactly` | internal/controller/authtxn.go:2323-2356 | a before-state is observed if and only if a 200 served the first recorded card of the one revision the route names, and it is that revision's |
| `SendPredicates.AttributesExactly` | internal/controller/authtxn.go:2358-2383 | a backendRef is attributed exactly by a recorded card of its revision |
| `Gate.SatisfiedExactly` | internal/controller/gate.go:231-293 | the gate is satisfied if and only if the CRD keeps the record, the suite is read, the pair has Passed and the card is recorded |
| `Gate.RunningExactly` | internal/controller/gate.go:231-401 | the exact conditions under which the gate answers EvalRunning |
| `Gate.HoldsExactly` | internal/controller/gate.go:231-430 | every other row of the gate, each if and only if its condition on the record, the suite, the cards, the slot and the note stands |
| `Rollout.PromotesExactly` | internal/controller/agent_controller.go:951-1121 | under every gating the active revision moves if and only if the wanted one is another, clashes with no recorded name, is materialized, available and not held for -auth, and the gate, a pin or the absence of a gate lets it, the card read as this pass fetched or found it; and then to that revision |
| `Rollout.RollSettles` | internal/controller/agent_controller.go:951-1121 | a refused pin or a clash changes nothing; otherwise the wanted revision ends active with no candidate, or the candidate beside an active one that did not move; the wanted revision's entry is this pass's fetch, empty when it failed, if there was one, and every other entry is as it was |
| `Rollout.UpsertRecords` | internal/controller/card.go:321-331 | an upsert decides the first entry of its own revision, and of no other |
| `EvalPass.ClaimsOnlyWhenReady` | internal/controller/evalcontroller.go:210-370 | a pass claims only where every shared predicate holds, the case has no entry and none is in flight |
| `EvalPass.ClaimsExactly` | internal/controller/evalcontroller.go:210-370 | the ordered checks of a pass let it claim if and only if every send predicate holds, the run is this pair's, nothing is in flight or blocked, and an addressable case is left; and it claims the first such case |
| `EvalPass.GoesOnExactly` | internal/controller/evalcontroller.go:806-870 | after its own run start or blocked write a pass goes on by the same rule: the orphan first, then the first missing case |
| `EvalPass.StartsExactly` | internal/controller/evalcontroller.go:210-370 | a run is cleared, started, or a claim of it recorded Interrupted, each if and only if its condition on the status and the reads holds |
| `EvalPass.CardDigestIsFirst` | internal/controller/evalcontroller.go:661-700 | the card a run start must serve is the digest of the revision's first entry |
| `EvalPass.SyncsExactly` | internal/controller/evalcontroller.go:466-494 | blocked is written if and only if the pass may judge the pair, starts no run, and finds something else to say of it, or of another pair or Lock, than is stored; and it writes that |
| `EvalPass.SyncGoesOn` | internal/controller/evalcontroller.go:806-870 | the pass goes on after that write exactly in an open run that may send, with nothing to say |
| `EvalPass.ClaimLeavesGateRunning` | internal/controller/evalcontroller.go:806-931 | on the status a claim leaves, the gate branch answers EvalRunning |
| `EvalPass.GateRunningStopsNoPass` | internal/controller/gate.go:231-401 | where the gate answers EvalRunning, no transaction, card, final-verdict or failed-pair check stops the eval controller, and it goes on to write |
| `EvalSafety.StepInv` | internal/controller/evalcontroller.go:394-403 | every step of any controller, with any network outcome, keeps the protocol's invariant |
| `EvalSafety.AtMostOnce` | internal/controller/evalcontroller.go:806-970 | over every run no case id of one run start is claimed twice or sent twice, and whatever was sent had been claimed |
| `EvalSafety.RunStep` | internal/controller/evalcontroller.go:806-1004 | while a run start stands, a step moves at most one case, forward, what is owed falls, Running means an unfinished case, and the verdict, by the threshold on the outcomes, lands with its lists in the write that records the last one |
| `EvalSafety.RecordedOutcomeStays` | internal/controller/evalcontroller.go:939-970 | a recorded outcome, Interrupted included, is never overwritten for the rest of its run start, over any further steps |
| `EvalSafety.OutcomesAreAnswers` | internal/controller/evalcontroller.go:890-970 | over every run an entry that says it was answered is CasePassed if and only if the one request of its claim, in this run start, was answered passed; an Interrupted one is CaseFailed; every entry's claim was committed |
| `EvalSafety.UntoldStops` | internal/controller/evalcontroller.go:394-420 | a controller that was not told its write committed goes no further with it |
| `EvalSafety.EveryPromotionAuthorized` | internal/controller/agent_controller.go:951-1121 | over every run the active revision moves only in a logged write, and each one under an enforced gate was authorized by what the store held when it committed: every suite case recorded and the passed answers of that run start, counted in the history, meeting the threshold, with the card known, or an admitted pin |
| `EvalSafety.GateEarnedPassKept` | internal/controller/pinrule.go:162-171 | once the gate promoted the active revision its Passed verdict stays in the pair or in passed[], through any later starts, failures and evictions |
| `EvalSafety.VerdictHistory` | internal/controller/evalcontroller.go:572-584 | over every run passed[] is bounded and duplicate-free and names only revisions whose latest final verdict is Passed; a Passed verdict has the history's passed answers meeting the threshold; a Failed one is in failed[] |
| `EvalSafety.RunStartReturns` | internal/controller/evalcontroller.go:561-584 | the eviction of every reachable run start comes to an end |
| `EvalSafety.CommittedClaimAgreesWithGate` | internal/controller/gate.go:231-401 | every claim that commits in any run is made where every send predicate holds of the status it commits on, and leaves the gate branch answering EvalRunning |
| `EvalCourse.WritesExactly` | internal/controller/evalcontroller.go:394-600 | a patch commits if and only if it was made against what is stored and reached the server, and then leaves status.eval, spelled field by field for each kind of patch, and nothing else; the controller holds the claim or goes on only if told |
| `EvalCourse.SendsExactly` | internal/controller/evalcontroller.go:885-931 | one request is sent for the claim held, and its answer is the outcome held to record |
| `EvalCourse.RecordsExactly` | internal/controller/evalcontroller.go:939-970 | the outcome lands exactly when its write meets the stored version; after a Conflict it is re-read and recorded after all if and only if the claim still stands |
| `EvalCourse.AgentWritesExactly` | internal/controller/agent_controller.go:951-1121 | the reconciler's saves commit by the same rule and move status.auth alone, what its rollout decided, or the cards alone |
| `EvalCourse.VerdictIsReached` | internal/controller/evalcontroller.go:806-1004 | from every run in progress that nothing holds, some steps lead to its verdict, whatever was in flight, every case ending as it stood, Interrupted, or as answered, and the verdict by the threshold on those |
| `EvalCourse.PromotedByAnswers` | internal/controller/gate.go:231-293 | from every state in which a run may start and only the gate stands in the way, a run and a rollout pass lead to the candidate serving if the passed answers meet the threshold, and otherwise to the pair Failed with the active revision unmoved, for all answers |
| `AuthMachine.Ensure` | internal/controller/httproute.go:249-313 | what is returned is the desired route, a write stores exactly it, and no API-key route is created published |
| `AuthSafety.StepInv` | internal/controller/authtxn.go:748-903 | every operation, stop and environment move keeps the machine's invariant |
| `AuthTheorems.HistoryIsComplete` | internal/controller/authtxn.go:1153-1168 | no operation publishes a route, writes or deletes a policy or stores status.auth without its entry, and every entry is truthful: reads hold the policy found and the digest asked for, answers and credits what was answered under the record then stored, a policy write the digest it left over nothing or this Agent's own, and a closing write's readings the reports of the same half |
| `AuthTheorems.ProbeCarries` | internal/controller/authtxn.go:1904-1957 | what a Lock's probe is handed, the NACKs, the Gateway read and the route, is what its own turn read, and its credit says the same |
| `AuthTheorems.CreateSafety` | internal/controller/authtxn.go:1214-1476 | every write of backendRefs on a Create's route is made at Publishing in a pass that began with no foreign policy and a revision serving, and puts exactly that revision there, marked only under none; an API-key Create's also follows a 401 credited to that same transaction between clean Gateway reads with no NACK, no foreign policy and its policy read intact at its target, since which every status stored is that transaction at Publishing, and a read of the policy intact at the same digest in the pass that publishes |
| `AuthTheorems.TransactionsEnd` | internal/controller/authtxn.go:970-1060 | over every run a Create or a Lock ends only served (a Create from Publishing, in a pass with a revision serving and no foreign policy), given over to a re-creation, or given up by a pass that wants another mode, and then to exactly what it came from |
| `AuthTheorems.WritesFollowTheRecord` | internal/controller/httproute.go:133-313 | every route written is the one the record then stored and the pass's input make it (prepared or on the serving revision alone, marked exactly under none), and every policy the digest recorded and rendered, for a transaction at ApplyingPolicies with no foreign hand on it or for what is served |
| `AuthTheorems.K2FollowsRefusal` | internal/controller/authtxn.go:943-962 | over every run a refused Adopt ends only in a Lock to apikey that its pass wants, after an earlier pass had wanted the mode the Adopt records as refused, which is neither unset nor apikey |
| `AuthTheorems.FollowsTheSpec` | internal/controller/authtxn.go:786-902 | a never-served Create publishes only in a pass that still wants its target mode, and no Create or Lock is entered but in a pass whose input compiles to its target with a revision serving |
| `AuthTheorems.NeverCreatedPublished` | internal/controller/httproute.go:271-289 | an API-key route is never created already published |
| `AuthTheorems.WrittenAhead` | internal/controller/authtxn.go:1247-1270 | at every crash point this Agent's policy exists only beside a stored record that says it was written or mode apikey, so never beside a settled none or a refused Adopt |
| `AuthTheorems.AdoptNeverCaptures` | internal/controller/authtxn.go:763-781 | from a start with no published route, an empty status.auth means the route is absent or unpublished, and no Adopt is ever recorded |
| `AuthTheorems.PolicyGoesAfterRoute` | internal/controller/authtxn.go:977-1031 | the operator deletes its policy only while the route is absent or stripped, except in abandoning a J2 or K2 Lock |
| `AuthTheorems.ServedOnlyOnCredit` | internal/controller/authtxn.go:1864-2029 | a Lock ends in mode apikey only in a pass that read its policy intact at the digest then recorded as applied and got a clean 401 on a converged route, credited under the very record it replaces and tied by a 200 the history holds, answered in this Lock with the recorded card of the revision the one backendRef still names, or by that revision's recorded card; a Create only on the 401 credited to it |
| `AuthTheorems.BeforeStateWasObserved` | internal/controller/authtxn.go:1833-1851 | at every point of every run, a Lock whose record says a before-state was observed has that 200 in its history, and every status stored since is that Lock with the same revision |
| `AuthTheorems.WaitingLockAndGate` | internal/controller/authtxn.go:1789-1812 | wherever a J2 or K2 Lock is left waiting at ProbingAfter, for a foreign policy, an unconverged route or an answer, the route names the active revision alone, so the eval is admitted exactly when no 401 could end the Lock |
| `AuthTheorems.ServedRouteFollowsRead` | internal/controller/authtxn.go:1646-1709 | a served API-key route is updated only after the same pass read a policy at the name and found it intact as recorded or re-asserted it, and the re-assert leaves it as recorded exactly when it is this Agent's own and the operator renders the recorded digest or it had it already |
| `AuthTheorems.LockedForever` | internal/controller/authtxn.go:1598-1613 | once mode apikey is stored, no steps of any kind change the mode or the applied digest |
| `AuthTheorems.LatchRefinesHistory` | internal/controller/authserved.go:625-749 | from any stored status until a pass records Served, each of the three claims says exactly that its last decisive reading was the bad one, or that it stood and none was decisive since; the readings are the reports (`AuthCourse.ClosesExactly`) |
| `AuthCourse.PassBegins` | internal/controller/authtxn.go:748-880 | what a pass starts on, each way if and only if its condition on the stored record and the input holds: J2 and K2 Lock entry, adoption, abandonment of a Create or a Lock, a Create or a Lock carried on, a target no longer rendered, the served paths and collection |
| `AuthCourse.LockEntered` | internal/controller/authtxn.go:836-843 | the stored record changes in a pass's first save if and only if J2 or K2 is wanted and the save is not refused, and then to a Lock of (apikey, rendered) at ProbingBefore, nothing written, J2 keeping what is served and K2 the claims |
| `AuthCourse.FirstPass` | internal/controller/authtxn.go:763-902 | with nothing recorded, a published route is adopted, and otherwise a Create of the wanted mode is stored if and only if it compiles and a revision serves: none at Publishing, apikey at PreparingRoute with the rendered digest |
| `AuthCourse.SaveGoesOn` | internal/controller/authtxn.go:1153-1168 | a save stores what the pass holds unless refused, and the pass goes on, and where, only when told |
| `AuthCourse.AdoptCourse` | internal/controller/authtxn.go:2468-2536 | an adopted route is kept on the serving revision, unmarked, and the refusal recorded with the mode K2 will ask for |
| `AuthCourse.AbandonsRoute` | internal/controller/authtxn.go:970-1031 | an abandoned Create's route is stripped, and deleted and read gone unless another mode compiles, before its policy |
| `AuthCourse.AbandonsPolicy` | internal/controller/authtxn.go:1000-1070 | this Agent's own policy is deleted if it may have been written and read gone, and then J2 goes back to none, K2 to the adopted route, and a Create to nothing or the Create now wanted |
| `AuthCourse.RecreatesExactly` | internal/controller/authtxn.go:1646-1729 | a re-creation is entered if and only if a served route is read unpublished or found gone, or the same of a missing-policy Lock's, and is of what is served, from the first stage |
| `AuthCourse.LocksMissingExactly` | internal/controller/authtxn.go:1730-1757 | a missing-policy Lock is entered if and only if a settled apikey's live read finds no policy, from ApplyingPolicies, of what is served |
| `AuthCourse.ServedCourse` | internal/controller/authtxn.go:1646-1709 | the rest of a served pass: the policy re-asserted only if own, recorded and rendered, the route then written on the serving revision, only a labelled route collected |
| `AuthCourse.CreateTurns` | internal/controller/authtxn.go:1231-1412 | where each stage of a Create goes and what it writes, each outcome if and only if |
| `AuthCourse.CreateReads` | internal/controller/authtxn.go:1272-1412 | Converging and ProbingAfter once the policy is read: on, back, stored, waiting or failing, each if and only if |
| `AuthCourse.Publishes` | internal/controller/authtxn.go:1414-1479 | a Create is served if and only if a revision serves, no foreign policy stands, the route is there to write and what was written has converged; the other outcomes likewise |
| `AuthCourse.LockEnters` | internal/controller/authtxn.go:1759-1824 | a Lock's entry: the route kept as served meanwhile, or read, and an observation of another revision forgotten, each if and only if |
| `AuthCourse.LockTurns` | internal/controller/authtxn.go:1825-1903 | the before-state recorded exactly on the serving revision's own card, and the policy written exactly with no foreign hand on it |
| `AuthCourse.LockReads` | internal/controller/authtxn.go:1904-1957 | Converging and ProbingAfter of a Lock, each outcome if and only if; only a missing-policy Lock on a carded revision is re-pointed |
| `AuthCourse.LockRoutes` | internal/controller/authtxn.go:1904-1957 | a missing-policy Lock's route is put on the serving revision before its probe, any other's loses its marker once served, and the ways each fails |
| `AuthCourse.LockProbes` | internal/controller/authtxn.go:1957-2054 | a Lock is served if and only if a 401 came through a converged route between clean reads and a before-state or the card of the route's revision attributes it |
| `AuthCourse.PassKeeps` | internal/controller/authtxn.go:307-408 | a pass keeps what it read when it began, and only its saves and its closing write store anything |
| `AuthCourse.ClosesExactly` | internal/controller/authserved.go:625-749 | each claim on the closing write from the report, the flag as it stood and the record: route and policy as reported in a pass without error that began and ends served or adopted, the key source as reported on a settled apikey, otherwise as it stood |
| `AuthReach.ServedIsReached` | internal/controller/authtxn.go:1231-1479 | from every idle state with nothing recorded, no published route and no policy, a Create that meets nothing in its way serves the apikey wanted, on the serving revision, under the policy rendered |
| `AuthReach.NoneIsReached` | internal/controller/authtxn.go:880-902 | the same for none, published at once with its marker |
| `AuthReach.LockIsReached` | internal/controller/authtxn.go:1825-2054 | from every state served under none, or adopted and refused under another mode, a Lock that meets nothing in its way ends served under apikey on the policy rendered, its 401 tied by a 200 observed before exactly when one was answered with the revision's card |
| `AuthReach.EditIsObeyed` | internal/controller/authtxn.go:836-843 | from nothing, an Agent wanted under none is served under none, and once wanted under apikey is locked in place |
| `AuthReach.ServedRouteOverForeignPolicy` | internal/controller/authtxn.go:2442-2456 | from any served state, a policy without this Agent's UID put at the name does not stop the next promotion from moving the route |
| `AuthSettle.StageLoopsSettle` | internal/controller/authtxn.go:1231-1237 | with only the pass's own writes changing objects, runCreate and runLock settle in at most six of their twelve turns from any stage |
| `AuthSettle.LoopIsARun` | internal/controller/authtxn.go:1825-2054 | what a loop does is a run of the machine, so every safety result holds of it |
| `AuthPass.Pass.EnsureServingRoute` | internal/controller/httproute.go:249-313 | the in-place write is the machine's |
| `AuthPass.Pass.Persist` | internal/controller/authtxn.go:1153-1168 | status.auth is stored and the pass goes on only if it was told so |
| `AuthPass.Pass.RunCreate` | internal/controller/authtxn.go:1214-1479 | the bounded loop updating fields in place ends where the machine's turns end, and with quiet objects never at "did not settle" |
| `AuthPass.Pass.RunLock` | internal/controller/authtxn.go:1825-2054 | the same for the Lock's loop, its re-point and its hand-over to runCreate |
| `ReasonOrder.IncompleteRank` | internal/controller/authtxn.go:615-622 | the place in the order, and -1 for exactly the reasons not in it |
| `ReasonOrder.RaiseLeads` | internal/controller/authtxn.go:626-638 | the lead is the first reason if that is unranked, and otherwise the ranked reason of least rank |
| `ReasonOrder.WithholdLeads` | internal/controller/authtxn.go:643-648 | the same for what Ready is withheld for, and its message is one that was raised |
| `ReasonOrder.BothAgree` | internal/controller/authtxn.go:626-648 | both folds end at one lead |
| `ReasonOrder.OrderIndependent` | internal/controller/authtxn.go:612-648 | the lead does not depend on the order raised, as long as neither order starts unranked |
| `ReasonOrder.NothingLost` | internal/controller/authtxn.go:626-638 | the condition's final message contains every message raised |
| `ReasonOrder.LeadSpeaksFirst` | internal/controller/authtxn.go:626-648 | the condition's message begins with the message Ready is withheld for |
| `ReasonOrder.EachIsNamed` | internal/controller/authtxn.go:626-638 | every raised reason but the lead is named before its message |
| `Teardown.RunNamespace.ListOwned` | internal/controller/httproute.go:619-657 | a route is listed if and only if it is there, has the emitted name and carries this Agent's UID |
| `Teardown.RunNamespace.DeleteAuthPolicy` | internal/controller/gatewaywiring.go:132-166 | clear means this Agent's policy is gone, it clears when nothing holds it, and nothing but this Agent's own policy ever goes |
| `Teardown.RunNamespace.RevokeGateway` | internal/controller/gatewaywiring.go:93-112 | the policy is deleted only once no owned route is left; clear means both gone; of the routes only the serving one goes, and only if one was owned; a serving route whose UID label was removed is left as it was |
| `Teardown.RunNamespace.Finalize` | internal/controller/agent_controller.go:2459-2547 | the finalizer is released only once owned routes and then the policy are read gone, whatever the environment does in between, they stay gone, and with nothing in the way it is released |

## Left out

- `Teardown.RunNamespace.Finalize`: models the branch of a live run namespace with the gateway enabled; workloads, Services and material that go after it are not modelled.
- `EvalLists.AppendPassed`: requires the exact condition under which the source's loop returns; every reachable input, and every list within the stored cap, meets it.
- HTTP, DNS, the card fetch and the probe client: an answer is a code, a digest or none, and may be anything.
- Gateway reads, foreign-policy detection, NACK listing and the clause-5 read: each read arbitrarily stands or does not.
- Rendering and drift comparison of Kubernetes objects: a route is its backends, marker and UID label; a policy is its UID label and digest.
- Message wording, carried notes and truncation, except that raiseIncomplete loses no message.
- CRD pruning and read-back failures: a stored record is kept as written; the gate's CRD check is an input.
- The 64-bit arithmetic of `Passes`: integers are unbounded, and the suite's size and a threshold of at most 1000 keep the products in range.
- Conditions, phases, requeue intervals and events other than the reasons ordered above.
- Workload, Service and run-namespace material, garbage collection beyond pruned cards, and name truncation: they would only add easy members.
- Reading the schema, digests of suites and revisions, and CEL compilation: taken as injective values.
