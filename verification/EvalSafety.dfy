/**
 What every run of the eval protocol keeps, whatever the interleaving of its
 controllers, the Agent reconciler's writes, lost responses and stops.
 */
module EvalSafety {
  import opened Types
  import opened EvalLists
  import opened EvalRecord
  import opened SendPredicates
  import opened Gate
  import opened Rollout
  import opened EvalPass
  import opened EvalSystem

  // ------------------------------------------------------- the invariant

  predicate BaseOk(s: Sys, base: Versioned) {
    base.rv <= s.rv && (base.rv == s.rv ==> base.st == s.st)
  }

  predicate AtMostOneSending(cases: map<CaseId, Entry>) {
    forall a, b :: a in cases && b in cases && cases[a].outcome == Sending && cases[b].outcome == Sending ==> a == b
  }

  /** A record and its pair: what each verdict says of the cases recorded. */
  predicate EvalOk(e: EvalStatus, nextNonce: Nonce) {
    && (e.verdict != NoVerdict ==> e.revision != 0 && e.suite.Some?)
    && (e.verdict == NoVerdict ==> e.cases == map[])
    && (e.suite.Some? ==> forall id :: id in e.cases ==> id in e.suite.value.ids)
    && (forall id :: id in e.cases ==> e.cases[id].claim < nextNonce)
    && AtMostOneSending(e.cases)
    && (e.verdict == Running ==> e.suite.value.ids == [] || !AllRecorded(e.suite.value.ids, e.cases))
    && (e.verdict == Passed ==> SuitePassed(e.suite.value, e.cases))
    && (e.verdict == Failed ==>
          && AllRecorded(e.suite.value.ids, e.cases)
          && !Passes(Passing(e.suite.value.ids, e.cases), |e.suite.value.ids|, e.suite.value.threshold)
          && e.failed != [] && e.failed[|e.failed| - 1] == Pair(e.revision, e.suite.value))
    && DistinctRevisions(e.passed) && |e.passed| <= MAX_PAIRS && |e.failed| <= MAX_PAIRS
  }

  predicate Lately(last: map<Digest, Verdict>, revision: Digest, v: Verdict) {
    revision in last && last[revision] == v
  }

  /** passed[] and the pair's own verdict agree with each revision's latest one. */
  predicate VerdictsOk(e: EvalStatus, last: map<Digest, Verdict>) {
    && (forall p :: p in e.passed ==> Lately(last, p.revision, Passed))
    && (e.verdict == Passed || e.verdict == Failed ==> Lately(last, e.revision, e.verdict))
  }

  /** A Passed verdict for the revision: in the pair, or in passed[]. */
  predicate PassRecorded(e: EvalStatus, revision: Digest) {
    (e.verdict == Passed && e.revision == revision) || Names(e.passed, revision)
  }

  /** activeRevisionPassUnrecorded, on a gated Agent: the statement is raised. */
  predicate PassUnrecorded(st: Status) {
    st.activeDigest != 0 && !(st.eval.Some? && PassRecorded(st.eval.value, st.activeDigest))
  }

  predicate EarnedOk(s: Sys) {
    Earned(s.hist) ==>
      && s.st.eval.Some?
      && PassRecorded(s.st.eval.value, s.st.activeDigest)
      && (s.st.eval.value.verdict == Running ==> s.st.eval.value.revision != s.st.activeDigest)
  }

  predicate DistinctClaims(claims: seq<ClaimEvent>) {
    forall a, b :: 0 <= a < b < |claims| ==>
      && (claims[a].run != claims[b].run || claims[a].id != claims[b].id)
      && claims[a].nonce != claims[b].nonce
  }

  predicate DistinctSends(sends: seq<ClaimEvent>) {
    forall a, b :: 0 <= a < b < |sends| ==> sends[a] != sends[b]
  }

  predicate ClaimsOk(s: Sys) {
    && DistinctClaims(s.hist.claims)
    && (forall ev :: ev in s.hist.claims ==> ev.run <= s.hist.run && ev.nonce < s.nextNonce)
    && (s.st.eval.Some? && s.st.eval.value.verdict == Running ==>
          forall ev :: ev in s.hist.claims && ev.run == s.hist.run ==> ev.id in s.st.eval.value.cases)
    && DistinctSends(s.hist.sends)
    && (forall ev :: ev in s.hist.sends ==> ev in s.hist.claims)
  }

  /** An entry says what happened: a claim of this run start in flight; one that
      was found with no outcome, failed as Interrupted; or one whose request
      was answered, passed exactly if the answer was. */
  predicate EntryTrue(h: History, id: CaseId, e: Entry) {
    var ev := ClaimEvent(h.run, id, e.claim);
    && ev in h.claims
    && match e.reason
       case NoReason => e.outcome == Sending
       case Interrupted => e.outcome == CaseFailed
       case Answered(_) => e.outcome != Sending && AnswerEvent(ev, e.outcome == CasePassed) in h.answers
  }

  predicate AnswersOk(s: Sys) {
    && |s.hist.answers| == |s.hist.sends|
    && (forall k :: 0 <= k < |s.hist.sends| ==> s.hist.answers[k].ev == s.hist.sends[k])
    && (s.st.eval.Some? ==>
          forall id :: id in s.st.eval.value.cases ==> EntryTrue(s.hist, id, s.st.eval.value.cases[id]))
  }

  /** The outcome a controller holds is the answer its request got. */
  predicate HoldsAnswer(h: History, ev: ClaimEvent, entry: Entry) {
    && ev in h.sends && entry.claim == ev.nonce && entry.outcome != Sending && entry.reason.Answered?
    && AnswerEvent(ev, entry.outcome == CasePassed) in h.answers
  }

  predicate CtlOk(s: Sys, ctl: Ctl) {
    match ctl
    case Idle => true
    case InPass(base, i, inRun) => BaseOk(s, base) && (inRun ==> RunReady(base.st, i))
    case Claimed(base, revision, suite, ev) =>
      && BaseOk(s, base) && Stands(base.st, revision, suite, ev.id, ev.nonce)
      && ev in s.hist.claims && ev !in s.hist.sends
    case Recording(base, revision, suite, ev, entry) =>
      && BaseOk(s, base) && Stands(base.st, revision, suite, ev.id, ev.nonce)
      && HoldsAnswer(s.hist, ev, entry)
    case Rereading(revision, suite, ev, entry) => HoldsAnswer(s.hist, ev, entry)
  }

  predicate CtlsOk(s: Sys) {
    && (forall c :: 0 <= c < |s.ctls| ==> CtlOk(s, s.ctls[c]))
    && (forall c, d :: 0 <= c < d < |s.ctls| && s.ctls[c].Claimed? && s.ctls[d].Claimed? ==>
          s.ctls[c].ev != s.ctls[d].ev)
  }

  predicate AgentOk(s: Sys) {
    match s.agent
    case AgentIdle => true
    case AgentPass(base, start, _) => BaseOk(s, base) && start == base.st.(auth := start.auth)
    case AgentCollecting(base) => BaseOk(s, base)
  }

  predicate AnsweredPassed(answers: seq<AnswerEvent>, run: nat, id: CaseId) {
    exists k :: 0 <= k < |answers| && answers[k].passed && answers[k].ev.run == run && answers[k].ev.id == id
  }

  /** How many of the suite's cases the candidate answered with a pass, in one run start. */
  ghost function PassedAnswers(answers: seq<AnswerEvent>, run: nat, ids: seq<CaseId>): nat {
    if ids == [] then 0
    else PassedAnswers(answers, run, ids[..|ids| - 1]) + if AnsweredPassed(answers, run, ids[|ids| - 1]) then 1 else 0
  }

  /** The answers of one run start meet the suite's threshold. */
  ghost predicate AnswersMeet(answers: seq<AnswerEvent>, run: nat, suite: Suite) {
    |suite.ids| > 0 && PassedAnswers(answers, run, suite.ids) * 1000 >= suite.threshold * |suite.ids|
  }

  /** What authorizes a promotion under an enforced gate, on the status stored
      when it commits: an available revision whose suite has an outcome for
      every case, and answered enough of them with a pass, or one an admitted
      pin names. */
  ghost predicate Authorized(p: Promotion, answers: seq<AnswerEvent>) {
    p.i.gating == GateEnforced ==>
      && p.i.materialized && p.i.ready
      && p.to == (if p.i.pin.PinResolved? then p.i.pin.digest else p.i.specDigest)
      && (|| (&& ByGate(p.found, p.i) && AllRecorded(p.i.suite.suite.ids, p.found.eval.value.cases)
              && AnswersMeet(answers, p.run, p.i.suite.suite))
          || ByPin(p.found, p.i))
  }

  ghost predicate PromotionsOk(h: History) {
    forall p :: p in h.promotions ==> Authorized(p, h.answers)
  }

  lemma {:induction false} PassingWasAnswered(h: History, ids: seq<CaseId>, cases: map<CaseId, Entry>)
    requires forall id :: id in cases ==> EntryTrue(h, id, cases[id])
    ensures Passing(ids, cases) <= PassedAnswers(h.answers, h.run, ids)
  {
    if ids != [] {
      PassingWasAnswered(h, ids[..|ids| - 1], cases);
      var id := ids[|ids| - 1];
      if id in cases && cases[id].outcome == CasePassed {
        assert EntryTrue(h, id, cases[id]);
        var k :| 0 <= k < |h.answers| && h.answers[k] == AnswerEvent(ClaimEvent(h.run, id, cases[id].claim), true);
        assert AnsweredPassed(h.answers, h.run, id);
      }
    }
  }

  lemma {:induction false} AnswersGrow(answers: seq<AnswerEvent>, a: AnswerEvent, run: nat, ids: seq<CaseId>)
    ensures PassedAnswers(answers, run, ids) <= PassedAnswers(answers + [a], run, ids)
  {
    if ids != [] {
      AnswersGrow(answers, a, run, ids[..|ids| - 1]);
      var id := ids[|ids| - 1];
      if k :| 0 <= k < |answers| && answers[k].passed && answers[k].ev.run == run && answers[k].ev.id == id {
        assert (answers + [a])[k] == answers[k];
      }
    }
  }

  lemma AuthorizedStill(p: Promotion, answers: seq<AnswerEvent>, a: AnswerEvent)
    requires Authorized(p, answers)
    ensures Authorized(p, answers + [a])
  {
    if p.i.gating == GateEnforced && p.i.suite.SuiteOf? {
      AnswersGrow(answers, a, p.run, p.i.suite.suite.ids);
    }
  }

  predicate RecordOk(s: Sys) {
    s.st.eval.Some? ==> EvalOk(s.st.eval.value, s.nextNonce) && VerdictsOk(s.st.eval.value, s.hist.last)
  }

  ghost predicate Inv(s: Sys) {
    RecordOk(s) && ClaimsOk(s) && AnswersOk(s) && CtlsOk(s) && AgentOk(s) && EarnedOk(s) && PromotionsOk(s.hist)
  }

  lemma InitInv(st: Status, n: nat)
    requires st.eval.None?
    ensures Inv(Init(st, n))
  {
  }

  // ------------------------------------------------ one patch of the record

  /** The verdict goes with the outcome that completes the suite, and with no other. */
  lemma OutcomeVerdict(e: EvalStatus, id: CaseId, entry: Entry)
    requires e.verdict == Running && e.suite.Some?
    ensures var suite, o := e.suite.value, WithOutcome(e, e.revision, e.suite.value, id, entry);
            && o == e.(cases := e.cases[id := entry], verdict := o.verdict, failed := o.failed, passed := o.passed)
            && (!AllRecorded(suite.ids, o.cases) ==>
                  o.verdict == Running && o.failed == e.failed && o.passed == e.passed)
            && (AllRecorded(suite.ids, o.cases) ==>
                  if Passes(Passing(suite.ids, o.cases), |suite.ids|, suite.threshold)
                  then o.verdict == Passed && o.failed == e.failed && o.passed == e.passed
                  else && o.verdict == Failed
                       && o.failed == FailedWith(e.failed, Pair(e.revision, suite))
                       && o.passed == Dropping(e.passed, e.revision))
  {
    DoneIsAll(e.suite.value.ids, e.cases[id := entry]);
  }

  predicate Finishes(e: EvalStatus, nextNonce: Nonce, id: CaseId, entry: Entry) {
    && EvalOk(e, nextNonce) && e.verdict == Running
    && id in e.cases && e.cases[id].outcome == Sending
    && entry.outcome != Sending && entry.claim == e.cases[id].claim
  }

  /** Recording the outcome of the claim in flight keeps the record whole. */
  lemma OutcomeKeepsRecord(e: EvalStatus, nextNonce: Nonce, id: CaseId, entry: Entry)
    requires Finishes(e, nextNonce, id, entry)
    ensures EvalOk(WithOutcome(e, e.revision, e.suite.value, id, entry), nextNonce)
  {
    OutcomeVerdict(e, id, entry);
    DroppingMembers(e.passed, e.revision);
    var cases := e.cases[id := entry];
    assert forall a :: a in cases && cases[a].outcome == Sending ==> a in e.cases && a != id;
  }

  /** And the history of verdicts: only a failed revision leaves passed[]. */
  lemma OutcomeKeepsVerdicts(e: EvalStatus, last: map<Digest, Verdict>, id: CaseId, entry: Entry)
    requires e.verdict == Running && e.suite.Some? && VerdictsOk(e, last)
    ensures var o := WithOutcome(e, e.revision, e.suite.value, id, entry);
            && VerdictsOk(o, Latest(last, Some(e), Some(o)))
            && (forall r :: Names(e.passed, r) && r != e.revision ==> Names(o.passed, r))
  {
    OutcomeVerdict(e, id, entry);
    DroppingMembers(e.passed, e.revision);
    var o := WithOutcome(e, e.revision, e.suite.value, id, entry);
    forall r | Names(e.passed, r) && r != e.revision
      ensures Names(o.passed, r)
    {
      var k :| 0 <= k < |e.passed| && e.passed[k].revision == r;
      assert e.passed[k] in o.passed;
    }
  }

  /** A run start keeps the history of passes, and moves a replaced Passed pair into it. */
  lemma StartKeeps(st: Status, suite: Suite, endpoint: nat, card: Digest, nextNonce: Nonce, last: map<Digest, Verdict>)
    requires st.eval.Some? ==> EvalOk(st.eval.value, nextNonce) && VerdictsOk(st.eval.value, last)
    requires CandidatePending(st)
    ensures var o := Started(st, suite, endpoint, card);
            && EvalOk(o, nextNonce) && VerdictsOk(o, last)
            && (st.eval.Some? && PassRecorded(st.eval.value, st.activeDigest) ==> Names(o.passed, st.activeDigest))
  {
    var o := Started(st, suite, endpoint, card);
    if st.eval.Some? {
      var e := st.eval.value;
      if e.verdict == Passed {
        var p := Pair(e.revision, e.suite.value);
        PassedHistory(e.passed, p, st.activeDigest);
        assert o.passed == PassedWith(e.passed, p, st.activeDigest);
        assert o.passed[|o.passed| - 1] == p;
        if Names(e.passed, st.activeDigest) && e.revision != st.activeDigest {
          var k :| 0 <= k < |e.passed| && e.passed[k].revision == st.activeDigest;
          assert e.passed[k] in o.passed;
        }
      }
    }
    assert suite.ids != [] ==> !Recorded(o.cases, suite.ids[0]);
  }

  /** A claim adds the one Sending entry there is. */
  lemma ClaimKeeps(e: EvalStatus, nonce: Nonce, id: CaseId)
    requires EvalOk(e, nonce) && e.verdict == Running
    requires id in e.suite.value.ids && id !in e.cases
    requires FirstSending(e.suite.value.ids, e.cases).None?
    ensures EvalOk(ClaimedCase(e, id, nonce), nonce + 1)
  {
    var o := ClaimedCase(e, id, nonce);
    forall a | a in e.cases
      ensures e.cases[a].outcome != Sending
    {
      assert a in e.suite.value.ids;
    }
    var k :| 0 <= k < |e.suite.value.ids| && e.suite.value.ids[k] == id;
    assert !Recorded(o.cases, e.suite.value.ids[k]);
  }

  // -------------------------------------------------------- one step

  predicate Advances(s: Sys, t: Sys) {
    s.rv <= t.rv && (s.rv == t.rv ==> s.st == t.st)
  }

  /** The controllers that did not move stay as they were: a write only makes
      their objects old, and only a controller's own send uses up its claim. */
  lemma OthersKeep(s: Sys, t: Sys, c: nat, ctl: Ctl)
    requires CtlsOk(s) && AgentOk(s) && Advances(s, t)
    requires c < |s.ctls| && t.ctls == s.ctls[c := ctl] && t.agent == s.agent
    requires forall ev :: ev in s.hist.claims ==> ev in t.hist.claims
    requires forall ev :: ev in t.hist.sends ==> ev in s.hist.sends || (s.ctls[c].Claimed? && ev == s.ctls[c].ev)
    requires forall ev :: ev in s.hist.sends ==> ev in t.hist.sends
    requires forall a :: a in s.hist.answers ==> a in t.hist.answers
    requires CtlOk(t, ctl)
    requires ctl.Claimed? ==> ctl.ev !in s.hist.claims
    ensures CtlsOk(t) && AgentOk(t)
  {
    forall d | 0 <= d < |t.ctls| && d != c
      ensures CtlOk(t, t.ctls[d])
    {
      assert CtlOk(s, s.ctls[d]);
    }
    forall d | 0 <= d < |t.ctls| && d != c && t.ctls[d].Claimed? && ctl.Claimed?
      ensures t.ctls[d].ev != ctl.ev
    {
      assert CtlOk(s, s.ctls[d]);
    }
  }

  /** The object a pass writes against, when its write commits. */
  ghost predicate Writing(s: Sys, c: nat) {
    Inv(s) && c < |s.ctls| && s.ctls[c].InPass? && s.ctls[c].base.rv == s.rv
  }

  function Intent(s: Sys, c: nat): EvalWrite
    requires c < |s.ctls| && s.ctls[c].InPass?
  {
    Decide(s.ctls[c].base.st, s.ctls[c].i, s.ctls[c].inRun)
  }

  /** The history only grows, and every entry is one it bears out already. */
  lemma AnswersKeep(s: Sys, t: Sys)
    requires AnswersOk(s)
    requires t.hist.run == s.hist.run && t.hist.sends == s.hist.sends && t.hist.answers == s.hist.answers
    requires forall ev :: ev in s.hist.claims ==> ev in t.hist.claims
    requires t.st.eval.Some? ==> forall id :: id in t.st.eval.value.cases ==>
               || (&& s.st.eval.Some? && id in s.st.eval.value.cases
                   && t.st.eval.value.cases[id] == s.st.eval.value.cases[id])
               || EntryTrue(t.hist, id, t.st.eval.value.cases[id])
    ensures AnswersOk(t)
  {
  }

  /** A nonce names its claim, so the claim a standing entry holds is of this run start. */
  lemma StandingClaim(s: Sys, ev: ClaimEvent)
    requires ClaimsOk(s) && AnswersOk(s) && s.st.eval.Some? && ev in s.hist.claims
    requires ev.id in s.st.eval.value.cases && s.st.eval.value.cases[ev.id].claim == ev.nonce
    ensures ev == ClaimEvent(s.hist.run, ev.id, ev.nonce)
  {
    var here := ClaimEvent(s.hist.run, ev.id, ev.nonce);
    assert EntryTrue(s.hist, ev.id, s.st.eval.value.cases[ev.id]);
    var a :| 0 <= a < |s.hist.claims| && s.hist.claims[a] == ev;
    var b :| 0 <= b < |s.hist.claims| && s.hist.claims[b] == here;
    assert !(a < b) && !(b < a);
  }

  lemma ClearStep(s: Sys, c: nat, net: Net)
    requires Writing(s, c) && Intent(s, c).ClearRun? && !net.Dropped?
    ensures Inv(StepWrite(s, c, net))
  {
    hide Decide;
    assert CtlOk(s, s.ctls[c]);
    OtherWrites(s.st, s.ctls[c].i, s.ctls[c].inRun);
    AnswersKeep(s, StepWrite(s, c, net));
    OthersKeep(s, StepWrite(s, c, net), c, Idle);
  }

  lemma SyncedCases(st: Status, suite: Suite, blocked: Option<Blocked>)
    ensures Synced(st, suite, blocked).cases == if st.eval.Some? then st.eval.value.cases else map[]
  {
  }

  /** Writing blocked leaves the record, its history and its pass alone. */
  lemma SyncKeeps(s: Sys, t: Sys, suite: Suite, blocked: Option<Blocked>)
    requires RecordOk(s) && ClaimsOk(s) && EarnedOk(s)
    requires t.st == s.st.(eval := Some(Synced(s.st, suite, blocked))) && t.nextNonce == s.nextNonce
    requires t.hist == s.hist.(last := Latest(s.hist.last, s.st.eval, t.st.eval))
    ensures RecordOk(t) && ClaimsOk(t) && EarnedOk(t)
  {
    hide SuitePassed, AllRecorded, Passes, Pairing;
  }

  /** A run start begins a record with no case, and no claim of its own yet. */
  lemma StartRecordKeeps(s: Sys, t: Sys, suite: Suite, endpoint: nat, card: Digest)
    requires RecordOk(s) && ClaimsOk(s) && EarnedOk(s) && CandidatePending(s.st)
    requires t.st == s.st.(eval := Some(Started(s.st, suite, endpoint, card))) && t.nextNonce == s.nextNonce
    requires t.hist == s.hist.(last := Latest(s.hist.last, s.st.eval, t.st.eval), run := s.hist.run + 1)
    ensures RecordOk(t) && ClaimsOk(t) && EarnedOk(t)
  {
    hide EvalOk, VerdictsOk, PassedWith, Pairing;
    StartKeeps(s.st, suite, endpoint, card, s.nextNonce, s.hist.last);
  }

  /** A claim's record and its entry in the history. */
  lemma ClaimRecordKeeps(s: Sys, t: Sys, id: CaseId)
    requires RecordOk(s) && ClaimsOk(s) && EarnedOk(s)
    requires s.st.eval.Some? && s.st.eval.value.verdict == Running && s.st.eval.value.suite.Some?
    requires id in s.st.eval.value.suite.value.ids && id !in s.st.eval.value.cases
    requires FirstSending(s.st.eval.value.suite.value.ids, s.st.eval.value.cases).None?
    requires t.st == s.st.(eval := Some(ClaimedCase(s.st.eval.value, id, s.nextNonce)))
    requires t.nextNonce == s.nextNonce + 1
    requires t.hist == s.hist.(last := s.hist.last, claims := s.hist.claims + [ClaimEvent(s.hist.run, id, s.nextNonce)])
    ensures RecordOk(t) && ClaimsOk(t) && EarnedOk(t)
    ensures ClaimEvent(s.hist.run, id, s.nextNonce) !in s.hist.claims
    ensures ClaimEvent(s.hist.run, id, s.nextNonce) !in s.hist.sends
  {
    hide EvalOk;
    ClaimKeeps(s.st.eval.value, s.nextNonce, id);
    ClaimLogged(s, t, id);
    ClaimUnsent(s, ClaimEvent(s.hist.run, id, s.nextNonce));
  }

  lemma SyncStep(s: Sys, c: nat, net: Net)
    requires Writing(s, c) && Intent(s, c).SyncBlocked? && !net.Dropped?
    ensures Inv(StepWrite(s, c, net))
  {
    hide Decide, RunReady, RecordOk, ClaimsOk, EarnedOk, Synced;
    assert CtlOk(s, s.ctls[c]);
    var i, w := s.ctls[c].i, Intent(s, c);
    var t := StepWrite(s, c, net);
    OtherWrites(s.st, i, s.ctls[c].inRun);
    if w.proceed {
      SyncLeavesReady(s.st, i, w.blocked);
    }
    SyncKeeps(s, t, i.suite.suite, w.blocked);
    SyncedCases(s.st, i.suite.suite, w.blocked);
    AnswersKeep(s, t);
    OthersKeep(s, t, c, t.ctls[c]);
  }

  lemma StartStep(s: Sys, c: nat, net: Net)
    requires Writing(s, c) && Intent(s, c).StartRun? && !net.Dropped?
    ensures Inv(StepWrite(s, c, net))
    ensures StepWrite(s, c, net).st.eval.Some? && StepWrite(s, c, net).st.eval.value.verdict == Running
    ensures StepWrite(s, c, net).st.eval.value.cases == map[]
  {
    hide Decide, RunReady, RecordOk, ClaimsOk, EarnedOk;
    assert CtlOk(s, s.ctls[c]);
    var i, w := s.ctls[c].i, Intent(s, c);
    var t := StepWrite(s, c, net);
    OtherWrites(s.st, i, s.ctls[c].inRun);
    StartLeavesReady(s.st, i, w.endpoint, w.card);
    StartRecordKeeps(s, t, i.suite.suite, w.endpoint, w.card);
    OthersKeep(s, t, c, t.ctls[c]);
  }

  /** A write of an outcome, by the pass that found the claim or the one that made it. */
  lemma OutcomeStep(s: Sys, t: Sys, id: CaseId, entry: Entry)
    requires RecordOk(s) && ClaimsOk(s) && EarnedOk(s) && s.st.eval.Some?
    requires Finishes(s.st.eval.value, s.nextNonce, id, entry)
    requires var e := s.st.eval.value;
             t == PutEval(s, Some(WithOutcome(e, e.revision, e.suite.value, id, entry))).(ctls := t.ctls)
    ensures RecordOk(t) && ClaimsOk(t) && EarnedOk(t) && Advances(s, t)
  {
    var e := s.st.eval.value;
    OutcomeVerdict(e, id, entry);
    OutcomeKeepsRecord(e, s.nextNonce, id, entry);
    OutcomeKeepsVerdicts(e, s.hist.last, id, entry);
  }

  lemma InterruptStep(s: Sys, c: nat, net: Net)
    requires Writing(s, c) && Intent(s, c).Interrupt? && !net.Dropped?
    ensures Inv(StepWrite(s, c, net))
  {
    hide Decide, WithOutcome, RunReady, ClaimsOk, EarnedOk, VerdictsOk, Authorized;
    assert CtlOk(s, s.ctls[c]);
    var id := Intent(s, c).id;
    var t := StepWrite(s, c, net);
    InterruptsOnlyInRun(s.st, s.ctls[c].i, s.ctls[c].inRun);
    OutcomeStep(s, t, id, Entry(CaseFailed, Interrupted, s.st.eval.value.cases[id].claim));
    OutcomeVerdict(s.st.eval.value, id, Entry(CaseFailed, Interrupted, s.st.eval.value.cases[id].claim));
    assert EntryTrue(s.hist, id, s.st.eval.value.cases[id]);
    AnswersKeep(s, t);
    OthersKeep(s, t, c, Idle);
  }

  /** A claim's entry in the history: its id has none in this run start yet. */
  lemma ClaimLogged(s: Sys, t: Sys, id: CaseId)
    requires ClaimsOk(s) && s.st.eval.Some? && s.st.eval.value.verdict == Running && id !in s.st.eval.value.cases
    requires t.st.eval == Some(ClaimedCase(s.st.eval.value, id, s.nextNonce)) && t.nextNonce == s.nextNonce + 1
    requires t.hist.claims == s.hist.claims + [ClaimEvent(s.hist.run, id, s.nextNonce)]
    requires t.hist.run == s.hist.run && t.hist.sends == s.hist.sends
    ensures ClaimsOk(t)
    ensures ClaimEvent(s.hist.run, id, s.nextNonce) !in s.hist.claims
  {
  }

  lemma ClaimStep(s: Sys, c: nat, net: Net)
    requires Writing(s, c) && Intent(s, c).Claim? && !net.Dropped?
    ensures Inv(StepWrite(s, c, net))
  {
    hide Decide, RecordOk, ClaimsOk, EarnedOk;
    assert CtlOk(s, s.ctls[c]);
    var i, id := s.ctls[c].i, Intent(s, c).id;
    var t := StepWrite(s, c, net);
    ClaimsOnlyWhenReady(s.st, i, s.ctls[c].inRun);
    ClaimRecordKeeps(s, t, id);
    AnswersKeep(s, t);
    OthersKeep(s, t, c, t.ctls[c]);
  }

  lemma ClaimUnsent(s: Sys, ev: ClaimEvent)
    requires ClaimsOk(s) && ev !in s.hist.claims
    ensures ev !in s.hist.sends
  {
  }

  lemma WriteStep(s: Sys, c: nat, net: Net)
    requires Inv(s) && c < |s.ctls| && s.ctls[c].InPass?
    ensures Inv(StepWrite(s, c, net))
  {
    var w := Intent(s, c);
    if w.Nothing? || !Commits(s, s.ctls[c].base, net) {
      OthersKeep(s, StepWrite(s, c, net), c, Idle);
    } else {
      match w
      case ClearRun => ClearStep(s, c, net);
      case SyncBlocked(_, _) => SyncStep(s, c, net);
      case StartRun(_, _) => StartStep(s, c, net);
      case Interrupt(_) => InterruptStep(s, c, net);
      case Claim(_) => ClaimStep(s, c, net);
    }
  }

  /** A claim that stands is of the run in progress. */
  lemma StandsInRun(s: Sys, c: nat)
    requires RecordOk(s) && c < |s.ctls| && s.ctls[c].Recording? && CtlOk(s, s.ctls[c]) && s.ctls[c].base.rv == s.rv
    ensures s.st.eval.Some? && s.st.eval.value.suite.Some?
    ensures var e, ctl := s.st.eval.value, s.ctls[c];
            Finishes(e, s.nextNonce, ctl.ev.id, ctl.entry) && ctl.revision == e.revision && ctl.suite == e.suite.value
  {
  }

  lemma RecordStep(s: Sys, c: nat, net: Net)
    requires Inv(s) && c < |s.ctls| && s.ctls[c].Recording?
    ensures Inv(StepRecord(s, c, net))
  {
    hide WithOutcome, EvalOk, VerdictsOk, RunReady, Authorized;
    var ctl, t := s.ctls[c], StepRecord(s, c, net);
    assert CtlOk(s, ctl);
    if ctl.base.rv == s.rv && !net.Dropped? {
      RecordCommits(s, c, net);
    } else {
      CtlMoves(s, t, c, t.ctls[c]);
    }
  }

  lemma RecordCommits(s: Sys, c: nat, net: Net)
    requires Inv(s) && c < |s.ctls| && s.ctls[c].Recording? && s.ctls[c].base.rv == s.rv && !net.Dropped?
    ensures Inv(StepRecord(s, c, net))
  {
    hide WithOutcome, RecordOk, ClaimsOk, EarnedOk, EvalOk, RunReady, Authorized;
    var ctl, t := s.ctls[c], StepRecord(s, c, net);
    assert CtlOk(s, ctl);
    StandsInRun(s, c);
    OutcomeStep(s, t, ctl.ev.id, ctl.entry);
    OutcomeVerdict(s.st.eval.value, ctl.ev.id, ctl.entry);
    StandingClaim(s, ctl.ev);
    AnswersKeep(s, t);
    OthersKeep(s, t, c, t.ctls[c]);
  }

  lemma SendStep(s: Sys, c: nat, passed: bool, text: nat)
    requires Inv(s) && c < |s.ctls| && s.ctls[c].Claimed?
    ensures Inv(Step(s, Send(c, passed, text)))
  {
    hide RunReady, EvalOk, VerdictsOk, PassRecorded, Authorized;
    assert CtlOk(s, s.ctls[c]);
    var t := Step(s, Send(c, passed, text));
    assert t.hist.sends == s.hist.sends + [s.ctls[c].ev];
    forall p | p in t.hist.promotions
      ensures Authorized(p, t.hist.answers)
    {
      AuthorizedStill(p, s.hist.answers, AnswerEvent(s.ctls[c].ev, passed));
    }
    forall id | t.st.eval.Some? && id in t.st.eval.value.cases
      ensures EntryTrue(t.hist, id, t.st.eval.value.cases[id])
    {
      assert EntryTrue(s.hist, id, s.st.eval.value.cases[id]);
    }
    OthersKeep(s, t, c, t.ctls[c]);
  }

  lemma GateWasAnswered(s: Sys, i: RolloutIn)
    requires RecordOk(s) && AnswersOk(s) && ByGate(s.st, i)
    ensures AllRecorded(i.suite.suite.ids, s.st.eval.value.cases)
    ensures AnswersMeet(s.hist.answers, s.hist.run, i.suite.suite)
  {
    PassingWasAnswered(s.hist, i.suite.suite.ids, s.st.eval.value.cases);
  }

  /** A promotion by the gate finds the verdict it rests on still stored. */
  lemma FinishStep(s: Sys, auth: Option<AuthStatus>, net: Net)
    requires Inv(s) && s.agent.AgentPass?
    ensures Inv(StepAgentFinish(s, auth, net))
  {
    hide Roll, RunReady, EvalOk, VerdictsOk;
    var a, t := s.agent, StepAgentFinish(s, auth, net);
    var st := Roll(a.start, a.i);
    RollKeepsTheRest(a.start, a.i);
    forall c | 0 <= c < |t.ctls|
      ensures CtlOk(t, t.ctls[c])
    {
      assert CtlOk(s, s.ctls[c]);
    }
    if a.base.rv == s.rv && st.activeDigest != s.st.activeDigest && a.i.gating == GateEnforced {
      PromotesExactly(a.start, a.i);
      assert ByGate(a.start, a.i) <==> ByGate(s.st, a.i);
      assert ByPin(a.start, a.i) <==> ByPin(s.st, a.i);
      if ByGate(s.st, a.i) {
        GateWasAnswered(s, a.i);
      }
      assert Authorized(Promotion(s.st, a.i, st.activeDigest, s.hist.run), s.hist.answers);
    }
  }

  lemma AgentWriteStep(s: Sys, t: Sys)
    requires Inv(s) && Advances(s, t) && AgentOk(t)
    requires t == s.(rv := t.rv, st := t.st, agent := t.agent)
    requires t.st == s.st.(auth := t.st.auth, cards := t.st.cards)
    ensures Inv(t)
  {
    forall c | 0 <= c < |t.ctls|
      ensures CtlOk(t, t.ctls[c])
    {
      assert CtlOk(s, s.ctls[c]);
    }
  }

  lemma CtlMoves(s: Sys, t: Sys, c: nat, ctl: Ctl)
    requires Inv(s) && c < |s.ctls| && t == WithCtl(s, c, ctl)
    requires !ctl.Claimed? && CtlOk(s, ctl)
    ensures Inv(t)
  {
    assert CtlOk(t, ctl);
    OthersKeep(s, t, c, ctl);
  }

  /** Every step keeps the invariant. */
  lemma StepInv(s: Sys, a: Action)
    requires Inv(s)
    ensures Inv(Step(s, a))
  {
    hide EvalOk, VerdictsOk, StepWrite, StepRecord, StepAgentFinish, Decide, RunReady;
    var t := Step(s, a);
    match a
    case Read(c, i) => if t != s { CtlMoves(s, t, c, InPass(Stored(s), i, false)); }
    case Write(c, net) => if c < |s.ctls| && s.ctls[c].InPass? { WriteStep(s, c, net); }
    case Send(c, passed, text) => if c < |s.ctls| && s.ctls[c].Claimed? { SendStep(s, c, passed, text); }
    case Record(c, net) => if c < |s.ctls| && s.ctls[c].Recording? { RecordStep(s, c, net); }
    case Reread(c) =>
      if c < |s.ctls| && s.ctls[c].Rereading? {
        assert CtlOk(s, s.ctls[c]);
        CtlMoves(s, t, c, t.ctls[c]);
      }
    case Stop(c) => if c < |s.ctls| { CtlMoves(s, t, c, Idle); }
    case AgentRead(i) => AgentWriteStep(s, t);
    case AgentAuth(auth, net) => if s.agent.AgentPass? { AgentWriteStep(s, t); }
    case AgentFinish(auth, net) => if s.agent.AgentPass? { FinishStep(s, auth, net); }
    case AgentPrune(cards, net) => if s.agent.AgentCollecting? { AgentWriteStep(s, t); }
    case AgentStop => AgentWriteStep(s, t);
  }

  lemma {:induction false} RunInv(s: Sys, actions: seq<Action>)
    requires Inv(s)
    ensures Inv(Run(s, actions))
  {
    if actions != [] {
      RunInv(s, actions[..|actions| - 1]);
      StepInv(Run(s, actions[..|actions| - 1]), actions[|actions| - 1]);
    }
  }

  // ------------------------------------------------------ over every run

  /** A state some run reaches from an Agent with no status.eval. */
  ghost predicate Reachable(s: Sys) {
    exists st: Status, n: nat, actions: seq<Action> :: st.eval.None? && s == Run(Init(st, n), actions)
  }

  lemma ReachableInv(s: Sys)
    requires Reachable(s)
    ensures Inv(s)
  {
    var st: Status, n: nat, actions: seq<Action> :| st.eval.None? && s == Run(Init(st, n), actions);
    InitInv(st, n);
    RunInv(Init(st, n), actions);
  }

  /** At most once: no case id of one run start is claimed twice, and none is
      sent twice; whatever was sent had been claimed. */
  lemma AtMostOnce(s: Sys)
    requires Reachable(s)
    ensures forall a, b :: 0 <= a < b < |s.hist.claims| ==>
              (s.hist.claims[a].run, s.hist.claims[a].id) != (s.hist.claims[b].run, s.hist.claims[b].id)
    ensures forall a, b :: 0 <= a < b < |s.hist.sends| ==>
              (s.hist.sends[a].run, s.hist.sends[a].id) != (s.hist.sends[b].run, s.hist.sends[b].id)
    ensures forall ev :: ev in s.hist.sends ==> ev in s.hist.claims
  {
    ReachableInv(s);
    forall a, b | 0 <= a < b < |s.hist.sends|
      ensures (s.hist.sends[a].run, s.hist.sends[a].id) != (s.hist.sends[b].run, s.hist.sends[b].id)
    {
      assert s.hist.sends[a] in s.hist.claims && s.hist.sends[b] in s.hist.claims;
      var i :| 0 <= i < |s.hist.claims| && s.hist.claims[i] == s.hist.sends[a];
      var j :| 0 <= j < |s.hist.claims| && s.hist.claims[j] == s.hist.sends[b];
      assert i != j;
    }
  }

  /** Promotion authorization: the active revision moves only in a write the
      log holds, and every one made under an enforced gate was authorized by
      what the store held when it committed. */
  lemma EveryPromotionAuthorized(s: Sys, a: Action)
    requires Reachable(s)
    ensures forall p :: p in s.hist.promotions ==> Authorized(p, s.hist.answers)
    ensures Step(s, a).st.activeDigest != s.st.activeDigest ==>
              && s.agent.AgentPass?
              && Step(s, a).hist.promotions ==
                 s.hist.promotions + [Promotion(s.st, s.agent.i, Step(s, a).st.activeDigest, s.hist.run)]
              && Authorized(Promotion(s.st, s.agent.i, Step(s, a).st.activeDigest, s.hist.run), s.hist.answers)
  {
    ReachableInv(s);
    StepInv(s, a);
    var t := Step(s, a);
    if t.st.activeDigest != s.st.activeDigest {
      if a.AgentFinish? {
        assert t.hist.promotions[|s.hist.promotions|] in t.hist.promotions;
      } else {
        KeepsActive(s, a);
      }
    }
  }

  lemma KeepsActive(s: Sys, a: Action)
    requires Inv(s) && !a.AgentFinish?
    ensures Step(s, a).st.activeDigest == s.st.activeDigest
  {
    hide Decide, Patched;
    match a
    case AgentAuth(_, _) =>
    case AgentPrune(_, _) =>
    case _ =>
  }

  /** A recorded outcome is what the candidate answered, or a claim found with
      no outcome: an entry that says it was answered is passed exactly if its
      one request, in this run start, was, and an Interrupted one is failed. */
  lemma OutcomesAreAnswers(s: Sys, id: CaseId)
    requires Reachable(s) && s.st.eval.Some? && id in s.st.eval.value.cases
    ensures var e, ev := s.st.eval.value.cases[id], ClaimEvent(s.hist.run, id, s.st.eval.value.cases[id].claim);
            && ev in s.hist.claims
            && (e.reason == NoReason <==> e.outcome == Sending)
            && (e.reason == Interrupted ==> e.outcome == CaseFailed)
            && (e.reason.Answered? ==>
                  && ev in s.hist.sends
                  && forall k :: 0 <= k < |s.hist.answers| && s.hist.answers[k].ev == ev ==>
                       (s.hist.answers[k].passed <==> e.outcome == CasePassed))
  {
    ReachableInv(s);
    var e, ev := s.st.eval.value.cases[id], ClaimEvent(s.hist.run, id, s.st.eval.value.cases[id].claim);
    assert EntryTrue(s.hist, id, e);
    if e.reason.Answered? {
      var j :| 0 <= j < |s.hist.answers| && s.hist.answers[j] == AnswerEvent(ev, e.outcome == CasePassed);
      assert s.hist.sends[j] == ev;
      forall k | 0 <= k < |s.hist.answers| && s.hist.answers[k].ev == ev
        ensures s.hist.answers[k].passed <==> e.outcome == CasePassed
      {
        assert s.hist.sends[k] == ev;
        assert k == j;
      }
    }
  }

  /** A controller that was not told its write committed does nothing more with it. */
  lemma UntoldStops(s: Sys, c: nat, net: Net)
    requires c < |s.ctls| && s.ctls[c].InPass? && !net.Ack?
    ensures StepWrite(s, c, net).ctls[c].Idle?
  {
    hide Decide, Patched;
  }

  /** A pass the gate promoted on is never forgotten while its revision serves. */
  lemma GateEarnedPassKept(s: Sys)
    requires Reachable(s) && Earned(s.hist)
    ensures !PassUnrecorded(s.st)
  {
    ReachableInv(s);
  }

  /** passed[] is bounded, has one entry per revision, and every revision it
      names passed when last judged; a revision's failure is in failed[]. */
  lemma VerdictHistory(s: Sys)
    requires Reachable(s) && s.st.eval.Some?
    ensures var e := s.st.eval.value;
            && DistinctRevisions(e.passed) && |e.passed| <= MAX_PAIRS && |e.failed| <= MAX_PAIRS
            && (forall p :: p in e.passed ==> Lately(s.hist.last, p.revision, Passed))
            && (e.verdict != NoVerdict ==> e.suite.Some?)
            && (e.verdict == Passed ==> AnswersMeet(s.hist.answers, s.hist.run, e.suite.value))
            && (e.verdict == Passed ==> SuitePassed(e.suite.value, e.cases) && Lately(s.hist.last, e.revision, Passed))
            && (e.verdict == Failed ==>
                  && Pair(e.revision, e.suite.value) in e.failed
                  && !Names(e.passed, e.revision)
                  && Lately(s.hist.last, e.revision, Failed))
  {
    ReachableInv(s);
    var e := s.st.eval.value;
    if e.verdict == Passed {
      PassingWasAnswered(s.hist, e.suite.value.ids, e.cases);
    }
    if e.verdict == Failed && Names(e.passed, e.revision) {
      var k :| 0 <= k < |e.passed| && e.passed[k].revision == e.revision;
      assert e.passed[k] in e.passed;
    }
  }

  /** Every reachable run start's eviction comes to an end. */
  lemma RunStartReturns(s: Sys, p: Pair)
    requires Reachable(s) && s.st.eval.Some?
    ensures exists turns: nat ::
              |EvictTurns(Appended(s.st.eval.value.passed, p), s.st.activeDigest, turns)| <= MAX_PAIRS
  {
    ReachableInv(s);
    EvictionEndsWithinTheCap(s.st.eval.value.passed, p, s.st.activeDigest);
  }

  /** Every committed claim is made where every send predicate holds of the
      status it commits on, and leaves one on which the gate branch, reading the
      same suite with the candidate available, answers EvalRunning. */
  lemma CommittedClaimAgreesWithGate(s: Sys, c: nat, net: Net)
    requires Reachable(s) && c < |s.ctls| && s.ctls[c].InPass?
    requires Intent(s, c).Claim? && Commits(s, s.ctls[c].base, net)
    ensures MaySend(s.st, s.ctls[c].i)
    ensures var t := StepWrite(s, c, net);
            DecideGate(GateIn(t.st.candidateDigest, Kept, s.ctls[c].i.suite, true, t.st)) == Hold(EvalRunning)
  {
    ReachableInv(s);
    assert CtlOk(s, s.ctls[c]);
    ClaimsOnlyWhenReady(s.st, s.ctls[c].i, s.ctls[c].inRun);
    ClaimLeavesGateRunning(s.st, s.ctls[c].i, s.ctls[c].inRun, s.nextNonce);
  }

  // ------------------------------------------------------- within a run

  predicate InRun(s: Sys) {
    s.st.eval.Some? && s.st.eval.value.verdict == Running
  }

  /** The one case a step of a run moves, if any: from nothing to Sending under
      a fresh nonce, or from Sending to an outcome under the same nonce. */
  predicate MovesOne(s: Sys, now: map<CaseId, Entry>, id: CaseId) {
    && InRun(s)
    && var was := s.st.eval.value.cases;
       && id in now && now == was[id := now[id]]
       && (if id in was
           then was[id].outcome == Sending && now[id].outcome != Sending && now[id].claim == was[id].claim
           else now[id].outcome == Sending && now[id].claim == s.nextNonce)
  }

  /** What a step may do to a run in progress. */
  predicate RunMoves(s: Sys, now: EvalStatus, moved: Option<CaseId>) {
    && InRun(s) && s.st.eval.value.suite.Some?
    && var was := s.st.eval.value;
       var ids := was.suite.value.ids;
       && now.revision == was.revision && now.suite == was.suite
       && (moved.None? ==> now.cases == was.cases && now.verdict == Running)
       && (moved.Some? ==>
             && moved.value in ids && MovesOne(s, now.cases, moved.value)
             && Owed(ids, now.cases) < Owed(ids, was.cases))
       && (ids != [] ==> (now.verdict == Running <==> !AllRecorded(ids, now.cases)))
       && (now.verdict != Running ==>
             && moved.Some? && moved.value in was.cases && AllRecorded(ids, now.cases)
             && (if Passes(Passing(ids, now.cases), |ids|, was.suite.value.threshold) then now.verdict == Passed
                 else && now.verdict == Failed
                      && PairFailed(now.failed, now.revision, now.suite.value)
                      && !Names(now.passed, now.revision)))
  }

  /** Case monotonicity and verdict atomicity: while a run start stands, a step
      leaves every case alone or moves exactly one of them forward, what the
      run owes then falls, and the verdict lands in the write that records the
      last case, with a failure's pair in failed[] in that same write. */
  lemma RunStep(s: Sys, a: Action) returns (moved: Option<CaseId>)
    requires Inv(s) && InRun(s) && Step(s, a).hist.run == s.hist.run
    ensures Step(s, a).st.eval.Some? && RunMoves(s, Step(s, a).st.eval.value, moved)
  {
    moved := None;
    if a.Write? && a.c < |s.ctls| && s.ctls[a.c].InPass? {
      moved := WriteMoves(s, a.c, a.net);
    } else if a.Record? && a.c < |s.ctls| && s.ctls[a.c].Recording? {
      var ctl := s.ctls[a.c];
      assert CtlOk(s, ctl);
      if ctl.base.rv == s.rv && !a.net.Dropped? {
        moved := Some(ctl.ev.id);
        RecordedMoves(s, Step(s, a).st.eval.value, ctl.ev.id, ctl.entry);
      }
    } else {
      OnlyEvalWritesTouchEval(s, a);
    }
  }

  lemma OnlyEvalWritesTouchEval(s: Sys, a: Action)
    requires Inv(s)
    requires a.Write? ==> !(a.c < |s.ctls| && s.ctls[a.c].InPass?)
    requires a.Record? ==> !(a.c < |s.ctls| && s.ctls[a.c].Recording?)
    ensures Step(s, a).st.eval == s.st.eval && Step(s, a).hist.run == s.hist.run
  {
    if a.AgentFinish? && s.agent.AgentPass? {
      RollKeepsTheRest(s.agent.start, s.agent.i);
    }
  }

  lemma ClaimMoves(s: Sys, id: CaseId)
    requires RecordOk(s) && InRun(s) && s.st.eval.value.suite.Some?
    requires id in s.st.eval.value.suite.value.ids && id !in s.st.eval.value.cases
    requires FirstSending(s.st.eval.value.suite.value.ids, s.st.eval.value.cases).None?
    ensures RunMoves(s, ClaimedCase(s.st.eval.value, id, s.nextNonce), Some(id))
  {
    var e := s.st.eval.value;
    ClaimKeeps(e, s.nextNonce, id);
    OwedFalls(e.suite.value.ids, e.cases, id, Entry(Sending, NoReason, s.nextNonce));
  }

  lemma StillMoves(s: Sys)
    requires RecordOk(s) && InRun(s)
    ensures RunMoves(s, s.st.eval.value, None)
  {
  }

  /** Writing blocked moves no case. */
  lemma SyncMoves(s: Sys, suite: Suite, blocked: Option<Blocked>)
    requires RecordOk(s) && InRun(s)
    ensures RunMoves(s, Synced(s.st, suite, blocked), None)
  {
  }

  lemma WriteMoves(s: Sys, c: nat, net: Net) returns (moved: Option<CaseId>)
    requires Inv(s) && InRun(s) && c < |s.ctls| && s.ctls[c].InPass?
    requires StepWrite(s, c, net).hist.run == s.hist.run
    ensures StepWrite(s, c, net).st.eval.Some? && RunMoves(s, StepWrite(s, c, net).st.eval.value, moved)
  {
    hide Decide, WithOutcome, RunMoves, ClaimedCase, Synced;
    moved := None;
    StillMoves(s);
    assert CtlOk(s, s.ctls[c]);
    OtherWrites(s.ctls[c].base.st, s.ctls[c].i, s.ctls[c].inRun);
    var w, e := Intent(s, c), s.st.eval.value;
    var t := StepWrite(s, c, net);
    if !w.Nothing? && Commits(s, s.ctls[c].base, net) {
      if w.Claim? {
        moved := Some(w.id);
        ClaimsOnlyWhenReady(s.st, s.ctls[c].i, s.ctls[c].inRun);
        ClaimMoves(s, w.id);
      } else if w.Interrupt? {
        moved := Some(w.id);
        InterruptsOnlyInRun(s.st, s.ctls[c].i, s.ctls[c].inRun);
        RecordedMoves(s, t.st.eval.value, w.id, Entry(CaseFailed, Interrupted, e.cases[w.id].claim));
      } else {
        assert w.SyncBlocked?;
        SyncMoves(s, s.ctls[c].i.suite.suite, w.blocked);
      }
    }
  }

  lemma RecordedMoves(s: Sys, now: EvalStatus, id: CaseId, entry: Entry)
    requires RecordOk(s) && InRun(s) && Finishes(s.st.eval.value, s.nextNonce, id, entry)
    requires var e := s.st.eval.value;
             now == WithOutcome(e, e.revision, e.suite.value, id, entry)
    ensures RunMoves(s, now, Some(id))
  {
    var e := s.st.eval.value;
    OutcomeVerdict(e, id, entry);
    OwedFalls(e.suite.value.ids, e.cases, id, entry);
    DroppingMembers(e.passed, e.revision);
    var dropped := Dropping(e.passed, e.revision);
    assert forall i :: 0 <= i < |dropped| ==> dropped[i] in dropped;
  }

  /** The cases and the verdict of one run start never go back. */
  predicate RunKeeps(s: Sys, t: Sys, id: CaseId)
    requires s.st.eval.Some? && id in s.st.eval.value.cases
  {
    && s.hist.run <= t.hist.run
    && (t.hist.run == s.hist.run ==>
          && t.st.eval.Some?
          && (t.st.eval.value.verdict != NoVerdict ==>
                id in t.st.eval.value.cases && t.st.eval.value.cases[id] == s.st.eval.value.cases[id]))
  }

  lemma RecordedStep(s: Sys, a: Action, id: CaseId)
    requires Inv(s) && s.st.eval.Some? && Recorded(s.st.eval.value.cases, id)
    ensures RunKeeps(s, Step(s, a), id)
  {
    var t := Step(s, a);
    if t.hist.run == s.hist.run {
      if InRun(s) {
        var moved := RunStep(s, a);
      } else {
        JudgedStep(s, a);
      }
    } else {
      RunCounts(s, a);
    }
  }

  lemma JudgedWrite(s: Sys, c: nat)
    requires Inv(s) && s.st.eval.Some? && !InRun(s) && c < |s.ctls| && s.ctls[c].InPass?
    ensures s.ctls[c].base.rv == s.rv ==>
              s.ctls[c].base.st == s.st && !Intent(s, c).Claim? && !Intent(s, c).Interrupt?
              && (Intent(s, c).SyncBlocked? || Intent(s, c).StartRun? ==> s.ctls[c].i.suite.SuiteOf?)
  {
    hide Decide;
    assert CtlOk(s, s.ctls[c]);
    var ctl := s.ctls[c];
    if ctl.base.rv == s.rv {
      OtherWrites(s.st, ctl.i, ctl.inRun);
      if Intent(s, c).Claim? {
        ClaimsOnlyWhenReady(s.st, ctl.i, ctl.inRun);
      } else if Intent(s, c).Interrupt? {
        InterruptsOnlyInRun(s.st, ctl.i, ctl.inRun);
      }
    }
  }

  /** A record with its verdict changes only by being cleared. */
  lemma JudgedStep(s: Sys, a: Action)
    requires Inv(s) && s.st.eval.Some? && !InRun(s) && Step(s, a).hist.run == s.hist.run
    ensures Step(s, a).st.eval.Some?
    ensures Step(s, a).st.eval.value.verdict == NoVerdict || Step(s, a).st.eval.value.cases == s.st.eval.value.cases
  {
    hide Decide, WithOutcome, RunReady, EvalOk, ClaimsOk, EarnedOk, VerdictsOk, PromotionsOk, AnswersOk;
    if a.Write? && a.c < |s.ctls| && s.ctls[a.c].InPass? {
      JudgedWrite(s, a.c);
    } else if a.Record? && a.c < |s.ctls| && s.ctls[a.c].Recording? {
      assert CtlOk(s, s.ctls[a.c]);
      if s.ctls[a.c].base.rv == s.rv {
        StandsInRun(s, a.c);
      }
    } else {
      OnlyEvalWritesTouchEval(s, a);
    }
  }

  /** A recorded outcome, an Interrupted one included, is the last word on its
      case for the rest of its run start, over any further steps. */
  lemma {:induction false} RecordedOutcomeStays(s: Sys, actions: seq<Action>, id: CaseId)
    requires Reachable(s) && s.st.eval.Some? && Recorded(s.st.eval.value.cases, id)
    ensures RunKeeps(s, Run(s, actions), id)
  {
    ReachableInv(s);
    RecordedOver(s, actions, id);
  }

  lemma {:induction false} RecordedOver(s: Sys, actions: seq<Action>, id: CaseId)
    requires Inv(s) && s.st.eval.Some? && Recorded(s.st.eval.value.cases, id)
    ensures RunKeeps(s, Run(s, actions), id)
  {
    if actions != [] {
      var m := Run(s, actions[..|actions| - 1]);
      RecordedOver(s, actions[..|actions| - 1], id);
      RunInv(s, actions[..|actions| - 1]);
      if m.hist.run == s.hist.run && m.st.eval.value.verdict != NoVerdict {
        RecordedStep(m, actions[|actions| - 1], id);
      } else {
        RunCounts(m, actions[|actions| - 1]);
      }
    }
  }

  /** Only a run start gives a cleared record a verdict again. */
  lemma RunCounts(s: Sys, a: Action)
    requires Inv(s)
    ensures s.hist.run <= Step(s, a).hist.run
    ensures s.st.eval.Some? && s.st.eval.value.verdict == NoVerdict && Step(s, a).hist.run == s.hist.run ==>
              Step(s, a).st.eval.Some? && Step(s, a).st.eval.value.verdict == NoVerdict
  {
    hide Decide, WithOutcome, RunReady;
    if a.Write? && a.c < |s.ctls| && s.ctls[a.c].InPass? {
      if s.st.eval.Some? && !InRun(s) {
        JudgedWrite(s, a.c);
      }
    } else if a.Record? && a.c < |s.ctls| && s.ctls[a.c].Recording? {
      assert CtlOk(s, s.ctls[a.c]);
    } else {
      OnlyEvalWritesTouchEval(s, a);
    }
  }
}
