/**
 One pass of the eval controller, as a decision: what `Reconcile` writes next,
 from the Agent it holds and what else it reads.
 */
module EvalPass {
  import opened Types
  import opened EvalLists
  import opened EvalRecord
  import opened SendPredicates
  import opened Gate

  datatype Clause5 = Clear5 | Held5(hold: Blocked)

  /** The run-start address and card fetch. */
  datatype StartRead =
    | StartFault(fault: Blocked) | StartRefused(refusal: Blocked) | StartCard(endpoint: nat, card: Digest)

  /** What a pass reads besides the Agent. `gated` is the guards of its first
      lines, `spec` the digest the current spec mints when it can be computed. */
  datatype PassIn = PassIn(
    gated: bool, generationCurrent: bool, available: bool,
    gatewayEnabled: bool, compiles: bool, pin: Digest, spec: Option<Digest>,
    suite: SuiteRead, thresholdOk: bool, clause5: Clause5,
    start: StartRead, claimFault: Option<Blocked>, shutdown: bool)

  datatype EvalWrite =
    | Nothing
    | ClearRun
    | SyncBlocked(blocked: Option<Blocked>, proceed: bool)
    | StartRun(endpoint: nat, card: Digest)
    | Interrupt(id: CaseId)
    | Claim(id: CaseId)

  /** Why a pass goes no further, in the order it checks. */
  datatype Stop =
    | NotGated | StaleGeneration | TransactionWait | Superseding | NotPending | NotAvailable | HeldForAuth
    | NoCard | NoSuite | NotMinted | NoThreshold | FinalVerdict | PairHasFailed | HeldByClause5 | Free

  function Pairing(st: Status, suite: Suite): BlockedFor {
    BlockedFor(st.candidateDigest, suite, RecordedLockDeadline(st.auth))
  }

  /** clearSuperseded's trigger. */
  predicate SupersededRun(st: Status) {
    && st.eval.Some? && st.eval.value.verdict == Failed
    && st.eval.value.revision != (if CandidatePending(st) then st.candidateDigest else st.activeDigest)
  }

  function StopAt(st: Status, i: PassIn): Stop {
    if !i.gated then NotGated
    else if !i.generationCurrent then StaleGeneration
    else if !TransactionAdmits(st) then TransactionWait
    else if RecordedTransaction(st.auth).None? && SupersededRun(st) then Superseding
    else if !CandidatePending(st) then NotPending
    else if !i.available then NotAvailable
    else if I1Hold(i.gatewayEnabled, st.auth, i.compiles, i.pin != 0) then HeldForAuth
    else if !HasCardFor(st.cards, st.candidateDigest) then NoCard
    else if !i.suite.SuiteOf? then NoSuite
    else if PinnedRollbackHolds(i.pin, st.candidateDigest, i.spec) then NotMinted
    else if !i.thresholdOk then NoThreshold
    else if Judged(st.eval, st.candidateDigest, i.suite.suite, Passed) ||
            Judged(st.eval, st.candidateDigest, i.suite.suite, Failed) then FinalVerdict
    else if AlreadyFailed(st.eval, st.candidateDigest, i.suite.suite) then PairHasFailed
    else if RecordedTransaction(st.auth).Some? && i.clause5.Held5? then HeldByClause5
    else Free
  }

  predicate SyncNeeded(st: Status, suite: Suite, blocked: Option<Blocked>) {
    !(st.eval.Some? && st.eval.value.blocked == blocked && st.eval.value.blockedFor == Some(Pairing(st, suite)))
  }

  function SyncThenStop(st: Status, suite: Suite, blocked: Option<Blocked>): EvalWrite {
    if SyncNeeded(st, suite, blocked) then SyncBlocked(blocked, false) else Nothing
  }

  predicate RunInProgress(st: Status, suite: Suite) {
    && Judged(st.eval, st.candidateDigest, suite, Running)
    && st.eval.value.endpoint != 0 && st.eval.value.card != 0
  }

  /** The digest status.cards[] records for a revision, or 0. */
  function CardDigest(cards: seq<Card>, revisionDigest: Digest): (d: Digest)
    ensures HasCardFor(cards, revisionDigest) <==> d != 0
  {
    if cards == [] then 0
    else if cards[0].revisionDigest == revisionDigest then cards[0].digest
    else CardDigest(cards[1..], revisionDigest)
  }

  lemma {:induction false} CardDigestIsFirst(cards: seq<Card>, revisionDigest: Digest)
    ensures CardDigest(cards, revisionDigest) ==
            match FirstCard(cards, revisionDigest) case Some(c) => c.digest case None => 0
  {
    if cards != [] && cards[0].revisionDigest != revisionDigest {
      CardDigestIsFirst(cards[1..], revisionDigest);
    }
  }

  /** startRun, short of its patch: an address fault, a refusal, or a start. */
  function RunStart(st: Status, suite: Suite, start: StartRead): EvalWrite {
    match start
    case StartFault(fault) => SyncThenStop(st, suite, Some(fault))
    case StartRefused(refusal) => SyncThenStop(st, suite, Some(refusal))
    case StartCard(endpoint, card) =>
      if CardDigest(st.cards, st.candidateDigest) != card || card == 0 then
        SyncThenStop(st, suite, Some(Blocked(AwaitingCard, card)))
      else if endpoint == 0 then SyncThenStop(st, suite, Some(Blocked(BindingUnsupported, 0)))
      else StartRun(endpoint, card)
  }

  /** nextCase, short of its patches. `written` is whether this pass has made its blocked write. */
  function NextCase(st: Status, i: PassIn, written: bool): EvalWrite
    requires st.eval.Some? && i.suite.SuiteOf?
  {
    var suite, cases := i.suite.suite, st.eval.value.cases;
    var orphan := FirstSending(suite.ids, cases);
    var next := if orphan.None? then FirstMissing(suite.ids, cases) else None;
    var fault := if next.Some? then i.claimFault else None;
    if !written && SyncNeeded(st, suite, fault) then SyncBlocked(fault, fault.None?)
    else if fault.Some? then Nothing
    else if orphan.Some? then Interrupt(orphan.value)
    else if next.None? || i.shutdown then Nothing
    else Claim(next.value)
  }

  /** What the pass writes next; `inRun` once its run-start or blocked patch is in. */
  function Decide(st: Status, i: PassIn, inRun: bool): EvalWrite {
    if inRun then
      if st.eval.Some? && i.suite.SuiteOf? then NextCase(st, i, true) else Nothing
    else match StopAt(st, i)
      case Superseding => ClearRun
      case FinalVerdict => SyncThenStop(st, i.suite.suite, None)
      case PairHasFailed => SyncThenStop(st, i.suite.suite, None)
      case HeldByClause5 => SyncThenStop(st, i.suite.suite, Some(i.clause5.hold))
      case Free =>
        if RunInProgress(st, i.suite.suite) then NextCase(st, i, false) else RunStart(st, i.suite.suite, i.start)
      case _ => Nothing
  }

  // What each patch leaves in status.eval.

  function Cleared(e: EvalStatus): EvalStatus { e.(verdict := NoVerdict, cases := map[]) }

  function Synced(st: Status, suite: Suite, blocked: Option<Blocked>): EvalStatus {
    (if st.eval.Some? then st.eval.value else EmptyEval).(blocked := blocked, blockedFor := Some(Pairing(st, suite)))
  }

  function Started(st: Status, suite: Suite, endpoint: nat, card: Digest): EvalStatus {
    var passed := if st.eval.None? then [] else st.eval.value.passed;
    var failed := if st.eval.None? then [] else st.eval.value.failed;
    var keeps := && st.eval.Some? && st.eval.value.verdict == Passed
                 && st.eval.value.revision != 0 && st.eval.value.suite.Some?;
    EvalStatus(st.candidateDigest, Some(suite), endpoint, card, Running, map[], failed,
               if keeps
               then PassedWith(passed, Pair(st.eval.value.revision, st.eval.value.suite.value), st.activeDigest)
               else passed,
               None, Some(Pairing(st, suite)))
  }

  function ClaimedCase(e: EvalStatus, id: CaseId, nonce: Nonce): EvalStatus {
    e.(cases := e.cases[id := Entry(Sending, NoReason, nonce)])
  }

  /** Every send predicate short of clause 5: a gated Agent whose status is
      current; a pending candidate that is available and carded, that the spec
      mints, or could mint beside a pin of another revision where its digest
      cannot be computed; not held because a served Agent's -auth input does not
      compile; a suite with a threshold; and no transaction in the way. */
  predicate MayJudge(st: Status, i: PassIn) {
    && i.gated && i.generationCurrent && i.available
    && st.candidateDigest != 0 && st.candidateDigest != st.activeDigest
    && TransactionAdmits(st)
    && (i.gatewayEnabled && i.pin == 0 && st.auth.Some? && st.auth.value.mode != Unset ==> i.compiles)
    && HasCardFor(st.cards, st.candidateDigest)
    && i.suite.SuiteOf? && i.thresholdOk
    && (if i.spec.Some? then i.spec.value == st.candidateDigest else i.pin != 0 && i.pin != st.candidateDigest)
    && !ClearsFirst(st, i)
  }

  /** A failed run of a revision no longer wanted, with no transaction recorded, is cleared first. */
  predicate ClearsFirst(st: Status, i: PassIn) {
    && i.gated && i.generationCurrent && RecordedTransaction(st.auth).None?
    && st.eval.Some? && st.eval.value.verdict == Failed
    && st.eval.value.revision !=
       (if st.candidateDigest != 0 && st.candidateDigest != st.activeDigest then st.candidateDigest
        else st.activeDigest)
  }

  predicate MaySend(st: Status, i: PassIn) {
    MayJudge(st, i) && (RecordedTransaction(st.auth).Some? ==> i.clause5.Clear5?)
  }

  /** The pair has no final verdict and has not failed before. */
  predicate Open(st: Status, i: PassIn) {
    && i.suite.SuiteOf?
    && Undecided(st, st.candidateDigest, i.suite.suite)
  }

  /** A run of the candidate against the suite has started, with its endpoint
      and its card recorded, and has no verdict yet. */
  predicate UnderWay(st: Status, suite: Suite) {
    && st.eval.Some? && st.eval.value.revision == st.candidateDigest && st.eval.value.suite == Some(suite)
    && st.eval.value.verdict == Running && st.eval.value.endpoint != 0 && st.eval.value.card != 0
  }

  /** Every send predicate holds and blocked says nothing stands in the way. */
  predicate RunReady(st: Status, i: PassIn) {
    && MaySend(st, i)
    && UnderWay(st, i.suite.suite)
    && Pair(st.candidateDigest, i.suite.suite) !in st.eval.value.failed
    && st.eval.value.blocked.None?
    && st.eval.value.blockedFor == Some(Pairing(st, i.suite.suite))
  }

  /** A pass claims only where everything the two controllers share lets it. */
  lemma ClaimsOnlyWhenReady(st: Status, i: PassIn, inRun: bool)
    requires Decide(st, i, inRun).Claim?
    requires inRun ==> RunReady(st, i)
    ensures RunReady(st, i)
    ensures Decide(st, i, inRun).id in i.suite.suite.ids && Decide(st, i, inRun).id !in st.eval.value.cases
    ensures FirstSending(i.suite.suite.ids, st.eval.value.cases).None?
  {
  }

  /** And a pass in a run claims exactly then: everything may be sent, blocked
      is already empty for this pair, nothing is in flight, a case is left, and
      it can be addressed before shutdown. */
  lemma ClaimsExactly(st: Status, i: PassIn)
    ensures Decide(st, i, false).Claim? <==>
            && RunReady(st, i)
            && FirstSending(i.suite.suite.ids, st.eval.value.cases).None?
            && FirstMissing(i.suite.suite.ids, st.eval.value.cases).Some?
            && i.claimFault.None? && !i.shutdown
    ensures Decide(st, i, false).Claim? ==>
              Some(Decide(st, i, false).id) == FirstMissing(i.suite.suite.ids, st.eval.value.cases)
  {
  }

  /** Once its run start or its blocked write is in, a pass goes on by the same
      rule: what was in flight is interrupted, and otherwise the first case with
      no entry is claimed if it can be addressed before shutdown. */
  lemma GoesOnExactly(st: Status, i: PassIn)
    requires st.eval.Some? && i.suite.SuiteOf?
    ensures var orphan := FirstSending(i.suite.suite.ids, st.eval.value.cases);
            var next := FirstMissing(i.suite.suite.ids, st.eval.value.cases);
            Decide(st, i, true) == if orphan.Some? then Interrupt(orphan.value)
                                   else if next.None? || i.claimFault.Some? || i.shutdown then Nothing
                                   else Claim(next.value)
  {
  }

  /** A run is cleared, started, or a claim of it recorded Interrupted, exactly when. */
  lemma StartsExactly(st: Status, i: PassIn)
    ensures Decide(st, i, false) == ClearRun <==> ClearsFirst(st, i)
    ensures Decide(st, i, false).StartRun? <==>
            && MaySend(st, i) && Open(st, i) && !UnderWay(st, i.suite.suite)
            && i.start.StartCard? && i.start.endpoint != 0 && i.start.card != 0
            && i.start.card == CardDigest(st.cards, st.candidateDigest)
    ensures Decide(st, i, false).StartRun? ==> Decide(st, i, false) == StartRun(i.start.endpoint, i.start.card)
    ensures Decide(st, i, false).Interrupt? <==>
            RunReady(st, i) && FirstSending(i.suite.suite.ids, st.eval.value.cases).Some?
    ensures Decide(st, i, false).Interrupt? ==>
              Some(Decide(st, i, false).id) == FirstSending(i.suite.suite.ids, st.eval.value.cases)
  {
  }

  /** What a pass finds to say of the pair: nothing once it is decided; clause
      5's hold; the fault of the address a run would start or go on at; the
      refusal of a run start; or nothing. */
  function Note(st: Status, i: PassIn): Option<Blocked>
    requires i.suite.SuiteOf?
  {
    if !Open(st, i) then None
    else if RecordedTransaction(st.auth).Some? && i.clause5.Held5? then Some(i.clause5.hold)
    else if UnderWay(st, i.suite.suite) then
      if (forall id :: id in i.suite.suite.ids && id in st.eval.value.cases ==>
                         st.eval.value.cases[id].outcome != Sending)
         && (exists id :: id in i.suite.suite.ids && id !in st.eval.value.cases)
      then i.claimFault else None
    else match i.start
      case StartFault(fault) => Some(fault)
      case StartRefused(refusal) => Some(refusal)
      case StartCard(endpoint, card) =>
        if card == 0 || card != CardDigest(st.cards, st.candidateDigest) then Some(Blocked(AwaitingCard, card))
        else if endpoint == 0 then Some(Blocked(BindingUnsupported, 0))
        else None
  }

  /** A pass writes blocked exactly when what it finds to say of the pair, or
      whom it says it for, is not what is stored; a run start says it itself. */
  lemma SyncsExactly(st: Status, i: PassIn)
    ensures Decide(st, i, false).SyncBlocked? <==>
            && MayJudge(st, i) && !Decide(st, i, false).StartRun?
            && !(&& st.eval.Some? && st.eval.value.blocked == Note(st, i)
                 && st.eval.value.blockedFor ==
                    Some(BlockedFor(st.candidateDigest, i.suite.suite, RecordedLockDeadline(st.auth))))
    ensures Decide(st, i, false).SyncBlocked? ==> Decide(st, i, false).blocked == Note(st, i)
  {
    hide HasCardFor, TransactionAdmits, CardDigest, FirstSending, FirstMissing, StopAt, MayJudge, Open;
    PassesChecks(st, i);
    if i.suite.SuiteOf? && UnderWay(st, i.suite.suite) {
      WorkExactly(i.suite.suite.ids, st.eval.value.cases);
    }
  }

  /** How far the ordered checks let a pass come. */
  lemma PassesChecks(st: Status, i: PassIn)
    ensures MayJudge(st, i) <==> StopAt(st, i) in {FinalVerdict, PairHasFailed, HeldByClause5, Free}
    ensures MayJudge(st, i) ==> i.suite.SuiteOf?
    ensures MayJudge(st, i) ==>
              && (StopAt(st, i) in {HeldByClause5, Free} <==> Open(st, i))
              && (StopAt(st, i) == HeldByClause5 <==>
                    Open(st, i) && RecordedTransaction(st.auth).Some? && i.clause5.Held5?)
  {
    hide HasCardFor, TransactionAdmits;
  }

  /** And goes on after it exactly in a run that may send, with nothing to say. */
  lemma SyncGoesOn(st: Status, i: PassIn)
    requires Decide(st, i, false).SyncBlocked?
    ensures i.suite.SuiteOf?
    ensures Decide(st, i, false).proceed <==>
              MaySend(st, i) && Open(st, i) && UnderWay(st, i.suite.suite) && Decide(st, i, false).blocked.None?
  {
    hide HasCardFor, TransactionAdmits, CardDigest, FirstSending, FirstMissing;
  }

  lemma WorkExactly(ids: seq<CaseId>, cases: map<CaseId, Entry>)
    ensures FirstSending(ids, cases).None? <==>
            forall id :: id in ids && id in cases ==> cases[id].outcome != Sending
    ensures FirstMissing(ids, cases).Some? <==> exists id :: id in ids && id !in cases
  {
    if FirstSending(ids, cases).None? {
      forall id | id in ids && id in cases
        ensures cases[id].outcome != Sending
      {
        var k :| 0 <= k < |ids| && ids[k] == id;
        assert ids[k] in cases;
      }
    }
    if FirstMissing(ids, cases).None? {
      forall id | id in ids
        ensures id in cases
      {
        var k :| 0 <= k < |ids| && ids[k] == id;
        assert ids[k] in cases;
      }
    }
  }

  /** A claim found with no outcome is recorded Interrupted only in its own run. */
  lemma InterruptsOnlyInRun(st: Status, i: PassIn, inRun: bool)
    requires Decide(st, i, inRun).Interrupt?
    requires inRun ==> RunReady(st, i)
    ensures i.suite.SuiteOf? && Judged(st.eval, st.candidateDigest, i.suite.suite, Running)
    ensures var id := Decide(st, i, inRun).id; id in st.eval.value.cases && st.eval.value.cases[id].outcome == Sending
  {
  }

  /** A run is cleared only after it failed, and blocked is written only for a suite that was read. */
  lemma OtherWrites(st: Status, i: PassIn, inRun: bool)
    ensures Decide(st, i, inRun).ClearRun? ==> st.eval.Some? && st.eval.value.verdict == Failed
    ensures Decide(st, i, inRun).SyncBlocked? ==> i.suite.SuiteOf?
    ensures Decide(st, i, inRun).SyncBlocked? || Decide(st, i, inRun).StartRun? ==> !inRun
    ensures Decide(st, i, inRun).StartRun? ==> i.suite.SuiteOf? && CandidatePending(st)
                                               && !Judged(st.eval, st.candidateDigest, i.suite.suite, Passed)
  {
  }

  lemma StartLeavesReady(st: Status, i: PassIn, endpoint: nat, card: Digest)
    requires Decide(st, i, false) == StartRun(endpoint, card)
    ensures RunReady(st.(eval := Some(Started(st, i.suite.suite, endpoint, card))), i)
    ensures CandidatePending(st)
  {
  }

  lemma SyncLeavesReady(st: Status, i: PassIn, blocked: Option<Blocked>)
    requires Decide(st, i, false) == SyncBlocked(blocked, true)
    ensures blocked.None?
    ensures RunReady(st.(eval := Some(Synced(st, i.suite.suite, blocked))), i)
  {
  }

  /** The gate agrees with a claim: on the status a claim leaves, the gate
      branch, reading the same suite with the candidate available, answers EvalRunning. */
  lemma ClaimLeavesGateRunning(st: Status, i: PassIn, inRun: bool, nonce: Nonce)
    requires Decide(st, i, inRun).Claim?
    requires inRun ==> RunReady(st, i)
    ensures st.eval.Some?
    ensures var after := st.(eval := Some(ClaimedCase(st.eval.value, Decide(st, i, inRun).id, nonce)));
            DecideGate(GateIn(st.candidateDigest, Kept, i.suite, true, after)) == Hold(EvalRunning)
  {
    ClaimsOnlyWhenReady(st, i, inRun);
    var after := st.(eval := Some(ClaimedCase(st.eval.value, Decide(st, i, inRun).id, nonce)));
    RunningExactly(GateIn(st.candidateDigest, Kept, i.suite, true, after));
  }

  /** And the eval controller agrees with EvalRunning: no check the two share
      stops a pass that reads the same suite. */
  lemma GateRunningStopsNoPass(st: Status, i: PassIn)
    requires i.suite.SuiteOf?
    requires DecideGate(GateIn(st.candidateDigest, Kept, i.suite, true, st)) == Hold(EvalRunning)
    ensures StopAt(st, i) !in {TransactionWait, NoCard, FinalVerdict, PairHasFailed}
    ensures StopAt(st, i) == Free && RunInProgress(st, i.suite.suite) && i.claimFault.None? && !i.shutdown
            && FirstMissing(i.suite.suite.ids, st.eval.value.cases).Some? ==>
              !Decide(st, i, false).Nothing?
    ensures StopAt(st, i) == Free && !RunInProgress(st, i.suite.suite) && i.start.StartCard?
            && i.start.card == CardDigest(st.cards, st.candidateDigest) && i.start.endpoint != 0 ==>
              Decide(st, i, false).StartRun?
  {
    RunningExactly(GateIn(st.candidateDigest, Kept, i.suite, true, st));
  }
}
