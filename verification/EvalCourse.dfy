/**
 What each write of the eval protocol leaves, exactly, and where a run leads: to
 its verdict by the answers it gets, and on to the promotion the gate then owes.
 */
module EvalCourse {
  import opened Types
  import opened EvalLists
  import opened EvalRecord
  import opened SendPredicates
  import opened Gate
  import opened Rollout
  import opened EvalPass
  import opened EvalSystem
  import opened EvalSafety

  // ------------------------------------------------- what a write leaves

  /** The deadline of the Lock in the slot, if there is one. */
  function LockDeadline(st: Status): Option<Instant> {
    if st.auth.Some? && st.auth.value.tx.Some? && st.auth.value.tx.value.kind == Lock
    then st.auth.value.tx.value.deadline else None
  }

  /** status.eval after each of a pass's patches. */
  predicate Leaves(s: Sys, i: PassIn, w: EvalWrite, now: EvalStatus) {
    var was := if s.st.eval.Some? then s.st.eval.value
               else EvalStatus(0, None, 0, 0, NoVerdict, map[], [], [], None, None);
    match w
    case Nothing => false
    case ClearRun => now == was.(verdict := NoVerdict, cases := map[])
    case SyncBlocked(blocked, _) =>
      && i.suite.SuiteOf?
      && now == was.(blocked := blocked,
                     blockedFor := Some(BlockedFor(s.st.candidateDigest, i.suite.suite, LockDeadline(s.st))))
    case StartRun(endpoint, card) =>
      && i.suite.SuiteOf?
      && now == EvalStatus(s.st.candidateDigest, Some(i.suite.suite), endpoint, card, Running, map[], was.failed,
                           now.passed, None, Some(BlockedFor(s.st.candidateDigest, i.suite.suite, LockDeadline(s.st))))
      && (if was.verdict == Passed
          then && Names(now.passed, was.revision)
               && (Names(was.passed, s.st.activeDigest) ==> Names(now.passed, s.st.activeDigest))
          else now.passed == was.passed)
    case Interrupt(id) =>
      id in was.cases && now.cases == was.cases[id := Entry(CaseFailed, Interrupted, was.cases[id].claim)]
    case Claim(id) => now == was.(cases := was.cases[id := Entry(Sending, NoReason, s.nextNonce)])
  }

  /** A pass's patch commits exactly when it was made against what is stored and
      reached the server, and then leaves status.eval so and the rest alone; the
      controller goes on only if it was told, with what the server then holds. */
  lemma WritesExactly(s: Sys, c: nat, net: Net)
    requires Inv(s) && c < |s.ctls| && s.ctls[c].InPass?
    ensures var t, w, i := StepWrite(s, c, net), Intent(s, c), s.ctls[c].i;
            if w.Nothing? || s.ctls[c].base.rv != s.rv || net == Dropped
            then t.st == s.st && t.rv == s.rv && t.ctls == s.ctls[c := Idle]
            else
              && t.st.eval.Some? && t.st == s.st.(eval := t.st.eval) && Leaves(s, i, w, t.st.eval.value)
              && (t.ctls[c].Claimed? <==> w.Claim? && net == Ack)
              && (t.ctls[c].InPass? <==> net == Ack && (w.StartRun? || (w.SyncBlocked? && w.proceed)))
              && (t.ctls[c].Claimed? || t.ctls[c].InPass? ==> t.ctls[c].base == Versioned(t.rv, t.st))
  {
    hide Inv, Decide, Patched, Leaves, RunReady;
    if s.ctls[c].base.rv == s.rv && !Intent(s, c).Nothing? {
      WriterReads(s, c);
      PatchLeaves(s, s.ctls[c].i, s.ctls[c].inRun);
    }
  }

  lemma PatchLeaves(s: Sys, i: PassIn, inRun: bool)
    requires Inv(s) && (inRun ==> RunReady(s.st, i)) && !Decide(s.st, i, inRun).Nothing?
    ensures var w := Decide(s.st, i, inRun);
            var now := Patched(s.st, i, w, s.nextNonce);
            (w.Claim? ==> i.suite.SuiteOf?) && now.Some? && Leaves(s, i, w, now.value)
  {
    hide Inv, Decide, WithOutcome, Started, StopAt;
    var w := Decide(s.st, i, inRun);
    OtherWrites(s.st, i, inRun);
    match w
    case Claim(_) => ClaimsOnlyWhenReady(s.st, i, inRun);
    case Interrupt(id) =>
      InterruptsOnlyInRun(s.st, i, inRun);
      InterruptLeaves(s.st.eval.value, s.st.candidateDigest, i.suite.suite, id,
                      Entry(CaseFailed, Interrupted, s.st.eval.value.cases[id].claim));
    case StartRun(endpoint, card) => StartLeaves(s, i, endpoint, card);
    case _ =>
  }

  lemma WriterReads(s: Sys, c: nat)
    requires Inv(s) && c < |s.ctls| && s.ctls[c].InPass? && s.ctls[c].base.rv == s.rv
    ensures s.ctls[c].base.st == s.st && (s.ctls[c].inRun ==> RunReady(s.st, s.ctls[c].i))
  {
    assert CtlOk(s, s.ctls[c]);
  }

  lemma InterruptLeaves(e: EvalStatus, revision: Digest, suite: Suite, id: CaseId, entry: Entry)
    ensures WithOutcome(e, revision, suite, id, entry).cases == e.cases[id := entry]
  {
  }

  lemma StartLeaves(s: Sys, i: PassIn, endpoint: nat, card: Digest)
    requires Inv(s) && i.suite.SuiteOf? && CandidatePending(s.st)
    ensures Leaves(s, i, StartRun(endpoint, card), Started(s.st, i.suite.suite, endpoint, card))
  {
    hide PassedWith;
    if s.st.eval.Some? && s.st.eval.value.verdict == Passed {
      var e := s.st.eval.value;
      StartKeeps(s.st, i.suite.suite, endpoint, card, s.nextNonce, s.hist.last);
      PassedHistory(e.passed, Pair(e.revision, e.suite.value), s.st.activeDigest);
    }
  }

  /** A request is sent once, and what it was answered is what the controller
      holds to record. */
  lemma SendsExactly(s: Sys, c: nat, passed: bool, text: nat)
    requires c < |s.ctls| && s.ctls[c].Claimed?
    ensures var t, was := Step(s, Send(c, passed, text)), s.ctls[c];
            && t.st == s.st && t.hist.sends == s.hist.sends + [was.ev]
            && t.ctls[c] == Recording(was.base, was.revision, was.suite, was.ev,
                                      Entry(if passed then CasePassed else CaseFailed, Answered(text), was.ev.nonce))
  {
  }

  /** The outcome is recorded exactly when its write was made against what is
      stored and reached the server. After a Conflict the controller re-reads,
      and records after all exactly when its claim still stands. */
  lemma RecordsExactly(s: Sys, c: nat, net: Net)
    requires Inv(s) && c < |s.ctls|
    ensures s.ctls[c].Recording? ==>
              var t, was := StepRecord(s, c, net), s.ctls[c];
              if was.base.rv == s.rv && net != Dropped then
                && t.st.eval.Some? && t.st == s.st.(eval := t.st.eval) && s.st.eval.Some?
                && t.st.eval.value.cases == s.st.eval.value.cases[was.ev.id := was.entry] && t.ctls[c].Idle?
              else
                && t.st == s.st
                && t.ctls[c] == if was.base.rv == s.rv then Idle
                                else Rereading(was.revision, was.suite, was.ev, was.entry)
    ensures s.ctls[c].Rereading? ==>
              var t, was := StepReread(s, c), s.ctls[c];
              var stands := && s.st.eval.Some? && s.st.eval.value.revision == was.revision
                            && s.st.eval.value.suite == Some(was.suite) && was.ev.id in s.st.eval.value.cases
                            && s.st.eval.value.cases[was.ev.id].outcome == Sending
                            && s.st.eval.value.cases[was.ev.id].claim == was.ev.nonce;
              && t.st == s.st
              && t.ctls[c] == if !stands then Idle
                              else Recording(Versioned(s.rv, s.st), was.revision, was.suite, was.ev, was.entry)
  {
    hide WithOutcome;
    var ctl := s.ctls[c];
    assert CtlOk(s, ctl);
    if ctl.Recording? && ctl.base.rv == s.rv {
      InterruptLeaves(s.st.eval.value, ctl.revision, ctl.suite, ctl.ev.id, ctl.entry);
    }
  }

  /** The Agent reconciler's writes commit by the same rule: -auth's own save
      moves status.auth alone, the closing one stores the rollout of the status
      its pass read, and pruning moves the cards alone. */
  lemma AgentWritesExactly(s: Sys, auth: Option<AuthStatus>, cards: seq<Card>, net: Net)
    requires Inv(s) && !s.agent.AgentIdle?
    ensures var commits := s.agent.base.rv == s.rv && net != Dropped;
            && (s.agent.AgentPass? ==>
                  && StepAgentAuth(s, auth, net).st == (if commits then s.st.(auth := auth) else s.st)
                  && StepAgentFinish(s, auth, net).st ==
                     if commits then Roll(s.agent.start, s.agent.i).(auth := auth) else s.st)
            && (s.agent.AgentCollecting? ==>
                  StepAgentPrune(s, cards, net).st == if commits then s.st.(cards := cards) else s.st)
  {
    hide Roll;
  }

  // --------------------------------------------------- to the verdict

  /** Some run leads from one state to the other. */
  ghost predicate Onto(s: Sys, t: Sys) {
    exists actions: seq<Action> :: t == Run(s, actions)
  }

  lemma OntoSelf(s: Sys)
    ensures Onto(s, s)
  {
    assert Run(s, []) == s;
  }

  lemma StepOnto(s: Sys, t: Sys, a: Action)
    requires Onto(s, t)
    ensures Onto(s, Step(t, a))
  {
    hide Step;
    var actions: seq<Action> :| t == Run(s, actions);
    assert (actions + [a])[..|actions|] == actions;
    assert Run(s, actions + [a]) == Step(t, a);
  }

  lemma {:induction false} OntoOnto(s: Sys, t: Sys, actions: seq<Action>)
    requires Onto(s, t)
    ensures Onto(s, Run(t, actions))
  {
    hide Step, Onto;
    if actions != [] {
      OntoOnto(s, t, actions[..|actions| - 1]);
      StepOnto(s, Run(t, actions[..|actions| - 1]), actions[|actions| - 1]);
    }
  }

  /** A controller with time for a run in progress that nothing holds. */
  ghost predicate Playing(s: Sys, c: nat, i: PassIn) {
    && Inv(s) && c < |s.ctls| && s.ctls[c].Idle?
    && RunReady(s.st, i) && i.claimFault.None? && !i.shutdown
  }

  /** A round of the run: one case's outcome is stored, and nothing else. */
  predicate Played(s: Sys, t: Sys, c: nat, id: CaseId, entry: Entry) {
    && s.st.eval.Some? && s.st.eval.value.suite.Some? && |t.ctls| == |s.ctls| && c < |t.ctls| && t.ctls[c].Idle?
    && t.agent == s.agent && t.hist.run == s.hist.run
    && var e := s.st.eval.value;
       t.st == s.st.(eval := Some(WithOutcome(e, e.revision, e.suite.value, id, entry)))
  }

  lemma InterruptRound(s: Sys, c: nat, i: PassIn, id: CaseId) returns (t: Sys)
    requires Playing(s, c, i) && FirstSending(i.suite.suite.ids, s.st.eval.value.cases) == Some(id)
    ensures Onto(s, t) && Inv(t) && Played(s, t, c, id, Entry(CaseFailed, Interrupted, s.st.eval.value.cases[id].claim))
  {
    hide Onto, Inv, WithOutcome;
    var s1 := Step(s, Read(c, i));
    OntoSelf(s);
    StepOnto(s, s, Read(c, i));
    StepInv(s, Read(c, i));
    assert Intent(s1, c) == Interrupt(id);
    t := Step(s1, Write(c, Ack));
    StepOnto(s, s1, Write(c, Ack));
    StepInv(s1, Write(c, Ack));
  }

  lemma ClaimRound(s: Sys, c: nat, i: PassIn, id: CaseId, passed: bool) returns (t: Sys)
    requires Playing(s, c, i) && FirstSending(i.suite.suite.ids, s.st.eval.value.cases).None?
    requires FirstMissing(i.suite.suite.ids, s.st.eval.value.cases) == Some(id)
    ensures Onto(s, t) && Inv(t)
    ensures Played(s, t, c, id, Entry(if passed then CasePassed else CaseFailed, Answered(0), s.nextNonce))
  {
    hide Onto, Inv, WithOutcome, HasCardFor, TransactionAdmits;
    var s1 := Step(s, Read(c, i));
    OntoSelf(s);
    StepOnto(s, s, Read(c, i));
    StepInv(s, Read(c, i));
    assert Intent(s1, c) == Claim(id);
    var s2 := Step(s1, Write(c, Ack));
    StepOnto(s, s1, Write(c, Ack));
    StepInv(s1, Write(c, Ack));
    t := AnswerRound(s, s2, c, passed);
    OutcomeOverClaim(s.st.eval.value, id, Entry(Sending, NoReason, s.nextNonce),
                     Entry(if passed then CasePassed else CaseFailed, Answered(0), s.nextNonce));
  }

  /** The claim held is sent, and its answer recorded. */
  lemma AnswerRound(s0: Sys, s: Sys, c: nat, passed: bool) returns (t: Sys)
    requires Onto(s0, s) && Inv(s) && c < |s.ctls| && s.ctls[c].Claimed? && s.ctls[c].base == Stored(s)
    requires s.st.eval.Some?
    ensures Onto(s0, t) && Inv(t) && t.ctls == s.ctls[c := Idle] && t.agent == s.agent && t.hist.run == s.hist.run
    ensures var was := s.ctls[c];
            var entry := Entry(if passed then CasePassed else CaseFailed, Answered(0), was.ev.nonce);
            t.st == s.st.(eval := Some(WithOutcome(s.st.eval.value, was.revision, was.suite, was.ev.id, entry)))
  {
    hide Onto, Inv, WithOutcome;
    var s1 := Step(s, Send(c, passed, 0));
    StepOnto(s0, s, Send(c, passed, 0));
    StepInv(s, Send(c, passed, 0));
    assert s1.ctls[c].Recording? && s1.ctls[c].base.rv == s1.rv;
    t := Step(s1, Record(c, Ack));
    StepOnto(s0, s1, Record(c, Ack));
    StepInv(s1, Record(c, Ack));
  }

  lemma OutcomeOverClaim(e: EvalStatus, id: CaseId, claim: Entry, entry: Entry)
    requires e.suite.Some?
    ensures WithOutcome(e.(cases := e.cases[id := claim]), e.revision, e.suite.value, id, entry) ==
            WithOutcome(e, e.revision, e.suite.value, id, entry)
  {
    assert e.cases[id := claim][id := entry] == e.cases[id := entry];
  }

  /** An outcome that is not the last leaves the run ready to go on. */
  lemma RoundKeepsReady(s: Sys, i: PassIn, id: CaseId, entry: Entry)
    requires RunReady(s.st, i) && Inv(s)
    ensures var e := s.st.eval.value;
            var o := WithOutcome(e, e.revision, e.suite.value, id, entry);
            && (o.verdict == Running ==> RunReady(s.st.(eval := Some(o)), i))
            && o.revision == e.revision && o.suite == e.suite && o.cases == e.cases[id := entry]
            && (o.verdict != Running ==> AllRecorded(i.suite.suite.ids, o.cases))
            && (o.verdict == Passed || o.verdict == Failed || o.verdict == Running)
            && (o.verdict == Passed ==> SuitePassed(i.suite.suite, o.cases))
            && (o.verdict == Failed ==>
                  !Passes(Passing(i.suite.suite.ids, o.cases), |i.suite.suite.ids|, i.suite.suite.threshold))
  {
    hide Inv, WithOutcome, Passes, AllRecorded, HasCardFor, TransactionAdmits;
    var e := s.st.eval.value;
    OutcomeVerdict(e, id, entry);
    var o := WithOutcome(e, e.revision, e.suite.value, id, entry);
    if o.verdict == Running {
      MaySendStill(s.st, i, o);
    }
  }

  lemma MaySendStill(st: Status, i: PassIn, e: EvalStatus)
    requires MaySend(st, i) && e.verdict == Running
    ensures MaySend(st.(eval := Some(e)), i)
  {
  }

  function Verdictly(passed: bool): Outcome { if passed then CasePassed else CaseFailed }

  /** Each case of the suite ends as it stood if it was recorded, failed if its
      claim was found in flight, and otherwise as the candidate answers it. */
  predicate EndsAs(ids: seq<CaseId>, was: map<CaseId, Entry>, now: map<CaseId, Entry>, answers: CaseId -> bool) {
    forall id :: id in ids ==>
      && id in now
      && now[id].outcome == if id !in was then Verdictly(answers(id))
                            else if was[id].outcome == Sending then CaseFailed else was[id].outcome
  }

  /** The run is over: the verdict stored is the suite's rule on its outcomes. */
  ghost predicate Finished(s: Sys, t: Sys, c: nat, suite: Suite, answers: CaseId -> bool) {
    && Inv(t) && |t.ctls| == |s.ctls| && c < |t.ctls| && t.ctls[c].Idle? && t.agent == s.agent
    && s.st.eval.Some? && t.st.eval.Some? && t.st == s.st.(eval := t.st.eval)
    && var e := t.st.eval.value;
       && e.revision == s.st.candidateDigest && e.suite == Some(suite)
       && EndsAs(suite.ids, s.st.eval.value.cases, e.cases, answers)
       && e.verdict == if Passes(Passing(suite.ids, e.cases), |suite.ids|, suite.threshold) then Passed else Failed
  }

  /** One more round, whatever the run owes next. */
  lemma NextRound(s: Sys, c: nat, i: PassIn, answers: CaseId -> bool) returns (t: Sys, id: CaseId, entry: Entry)
    requires Playing(s, c, i) && i.suite.suite.ids != []
    ensures Onto(s, t) && Inv(t) && Played(s, t, c, id, entry)
    ensures var was := s.st.eval.value.cases;
            && id in i.suite.suite.ids && (id in was ==> was[id].outcome == Sending)
            && entry.outcome == if id in was then CaseFailed else Verdictly(answers(id))
  {
    hide Inv, Onto, WithOutcome, HasCardFor, TransactionAdmits;
    var cases, ids := s.st.eval.value.cases, i.suite.suite.ids;
    Unfinished(s, i);
    WorkExactly(ids, cases);
    if FirstSending(ids, cases).Some? {
      id := FirstSending(ids, cases).value;
      entry := Entry(CaseFailed, Interrupted, cases[id].claim);
      t := InterruptRound(s, c, i, id);
    } else {
      id := FirstMissing(ids, cases).value;
      entry := Entry(Verdictly(answers(id)), Answered(0), s.nextNonce);
      t := ClaimRound(s, c, i, id, answers(id));
    }
  }

  /** A run in progress has a case in flight or a case to claim. */
  lemma Unfinished(s: Sys, i: PassIn)
    requires Inv(s) && RunReady(s.st, i) && i.suite.suite.ids != []
    ensures var ids, cases := i.suite.suite.ids, s.st.eval.value.cases;
            FirstSending(ids, cases).None? ==> FirstMissing(ids, cases).Some?
  {
  }

  /** Every run that nothing holds comes to its verdict, through whatever was in
      flight when it was picked up, and the verdict is by the answers. */
  lemma {:induction false} VerdictIsReached(s: Sys, c: nat, i: PassIn, answers: CaseId -> bool) returns (t: Sys)
    requires Playing(s, c, i) && i.suite.suite.ids != []
    ensures Onto(s, t) && Finished(s, t, c, i.suite.suite, answers)
    decreases Owed(i.suite.suite.ids, s.st.eval.value.cases)
  {
    hide Inv, Onto, WithOutcome, Passes, AllRecorded, HasCardFor, TransactionAdmits;
    var ids := i.suite.suite.ids;
    var m, id, entry := NextRound(s, c, i, answers);
    RoundKeepsReady(s, i, id, entry);
    OwedFalls(ids, s.st.eval.value.cases, id, entry);
    if m.st.eval.value.verdict == Running {
      t := VerdictIsReached(m, c, i, answers);
      OntoThrough(s, m, t);
    } else {
      t := m;
      LastRound(ids, s.st.eval.value.cases, id, entry, answers);
    }
  }

  /** With the last case recorded, every other one stood recorded already. */
  lemma LastRound(ids: seq<CaseId>, was: map<CaseId, Entry>, id: CaseId, entry: Entry, answers: CaseId -> bool)
    requires AllRecorded(ids, was[id := entry]) && id in ids
    requires id in was ==> was[id].outcome == Sending
    requires entry.outcome == if id in was then CaseFailed else Verdictly(answers(id))
    ensures EndsAs(ids, was, was[id := entry], answers)
  {
    forall other | other in ids && other != id
      ensures other in was && was[other].outcome != Sending
    {
      var k :| 0 <= k < |ids| && ids[k] == other;
      assert Recorded(was[id := entry], ids[k]);
    }
  }

  lemma OntoThrough(s: Sys, m: Sys, t: Sys)
    requires Onto(s, m) && Onto(m, t)
    ensures Onto(s, t)
  {
    var actions: seq<Action> :| t == Run(m, actions);
    OntoOnto(s, m, actions);
  }

  // ----------------------------------------------- and to the promotion

  /** A controller with nothing under way, for a pair that may be judged and has
      no verdict, no run in progress, and an address that serves its card. */
  ghost predicate MayStart(s: Sys, c: nat, i: PassIn) {
    && Inv(s) && c < |s.ctls| && s.ctls[c].Idle? && s.agent.AgentIdle?
    && MaySend(s.st, i) && Open(s.st, i) && !UnderWay(s.st, i.suite.suite)
    && i.start.StartCard? && i.start.endpoint != 0 && i.start.card != 0
    && i.start.card == CardDigest(s.st.cards, s.st.candidateDigest)
    && i.claimFault.None? && !i.shutdown && i.suite.suite.ids != []
  }

  /** A run starts: its first pass goes no further here, and the next picks it up. */
  lemma StartRound(s: Sys, c: nat, i: PassIn) returns (t: Sys)
    requires MayStart(s, c, i)
    ensures Onto(s, t) && Playing(t, c, i) && t.agent == s.agent
    ensures t.st == s.st.(eval := t.st.eval) && t.st.eval.value.cases == map[]
  {
    hide Onto, Inv, Decide, MaySend, Open, RunReady;
    StartsExactly(s.st, i);
    var w := Decide(s.st, i, false);
    StartLeavesReady(s.st, i, w.endpoint, w.card);
    var s1 := Step(s, Read(c, i));
    OntoSelf(s);
    StepOnto(s, s, Read(c, i));
    StepInv(s, Read(c, i));
    var s2 := Step(s1, Write(c, Ack));
    StepOnto(s, s1, Write(c, Ack));
    StepInv(s1, Write(c, Ack));
    StartedReads(s.st, i, w.endpoint, w.card);
    t := Step(s2, Stop(c));
    StepOnto(s, s2, Stop(c));
    StepInv(s2, Stop(c));
  }

  lemma StartedReads(st: Status, i: PassIn, endpoint: nat, card: Digest)
    requires MaySend(st, i)
    ensures i.suite.SuiteOf? && Started(st, i.suite.suite, endpoint, card).cases == map[]
  {
  }

  /** How many of the suite's cases the candidate answers with a pass. */
  function Yes(ids: seq<CaseId>, answers: CaseId -> bool): nat {
    if ids == [] then 0 else Yes(ids[..|ids| - 1], answers) + if answers(ids[|ids| - 1]) then 1 else 0
  }

  lemma {:induction false} YesIsPassing(ids: seq<CaseId>, now: map<CaseId, Entry>, answers: CaseId -> bool)
    requires EndsAs(ids, map[], now, answers)
    ensures Passing(ids, now) == Yes(ids, answers)
  {
    if ids != [] {
      YesIsPassing(ids[..|ids| - 1], now, answers);
      assert ids[|ids| - 1] in ids;
    }
  }

  /** Nothing but the gate stands between the candidate and promotion. */
  predicate OnlyGated(st: Status, i: PassIn, r: RolloutIn) {
    && r.pin.NoPin? && r.gating == GateEnforced && r.record == Kept && r.suite == i.suite
    && r.materialized && r.ready && r.compiles && r.card == NotDue && r.specDigest == st.candidateDigest
    && !Clashes(st.activeRev, st.activeDigest, r.specRev, r.specDigest)
    && !Clashes(st.candidateRev, st.candidateDigest, r.specRev, r.specDigest)
  }

  /** The gate decides by the answers: from any state in which a run may start
      and only the gate stands in the way, a run and a rollout pass lead to the
      candidate serving if enough of the suite's cases are answered with a pass,
      and otherwise leave the active revision where it was, the pair Failed. */
  lemma PromotedByAnswers(s: Sys, c: nat, i: PassIn, r: RolloutIn, answers: CaseId -> bool) returns (t: Sys)
    requires MayStart(s, c, i) && OnlyGated(s.st, i, r)
    ensures Onto(s, t) && t.st.eval.Some?
    ensures var suite := i.suite.suite;
            if Yes(suite.ids, answers) * 1000 >= suite.threshold * |suite.ids|
            then t.st.activeDigest == s.st.candidateDigest && t.st.eval.value.verdict == Passed
            else && t.st.activeDigest == s.st.activeDigest && t.st.eval.value.verdict == Failed
                 && Pair(s.st.candidateDigest, suite) in t.st.eval.value.failed
  {
    hide Onto, Inv, MaySend, RunReady, EndsAs;
    var started := StartRound(s, c, i);
    var judged := VerdictIsReached(started, c, i, answers);
    OntoThrough(s, started, judged);
    YesIsPassing(i.suite.suite.ids, judged.st.eval.value.cases, answers);
    FailureIsListed(judged);
    t := RolledOut(judged, r);
    OntoThrough(s, judged, t);
    MaySendCarded(s.st, i);
    PromotesExactly(judged.st, r);
  }

  lemma FailureIsListed(s: Sys)
    requires Inv(s) && s.st.eval.Some?
    ensures var e := s.st.eval.value;
            e.verdict == Failed ==> e.suite.Some? && Pair(e.revision, e.suite.value) in e.failed
  {
  }

  lemma MaySendCarded(st: Status, i: PassIn)
    requires MaySend(st, i)
    ensures HasCardFor(st.cards, st.candidateDigest) && st.candidateDigest != st.activeDigest
  {
  }

  /** A rollout pass that commits leaves what its rollout decides. */
  lemma RolledOut(s: Sys, r: RolloutIn) returns (t: Sys)
    requires s.agent.AgentIdle?
    ensures Onto(s, t) && t.st == Roll(s.st, r) && t.st.eval == s.st.eval
  {
    hide Onto, Roll;
    RollKeepsTheRest(s.st, r);
    OntoSelf(s);
    StepOnto(s, s, AgentRead(r));
    var s1 := Step(s, AgentRead(r));
    StepOnto(s, s1, AgentFinish(s.st.auth, Ack));
    t := Step(s1, AgentFinish(s.st.auth, Ack));
  }
}
