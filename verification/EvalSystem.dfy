/**
 Any number of eval controllers and one Agent reconciler over one stored Agent.
 Every status write carries the resourceVersion it was made against; a response
 may be lost, and a controller may stop between any two of its steps.
 */
module EvalSystem {
  import opened Types
  import opened EvalRecord
  import opened Gate
  import opened Rollout
  import opened EvalPass

  datatype Versioned = Versioned(rv: nat, st: Status)

  /** A claim: which run start it belongs to, its case and its nonce. */
  datatype ClaimEvent = ClaimEvent(run: nat, id: CaseId, nonce: Nonce)

  /** An eval controller: between passes, in a pass, holding an acknowledged
      claim, holding an answer to record, or about to re-read after a Conflict. */
  datatype Ctl =
    | Idle
    | InPass(base: Versioned, i: PassIn, inRun: bool)
    | Claimed(base: Versioned, revision: Digest, suite: Suite, ev: ClaimEvent)
    | Recording(base: Versioned, revision: Digest, suite: Suite, ev: ClaimEvent, entry: Entry)
    | Rereading(revision: Digest, suite: Suite, ev: ClaimEvent, entry: Entry)

  /** The Agent reconciler: the object it writes against, and the status its pass started from. */
  datatype Agent =
    | AgentIdle
    | AgentPass(base: Versioned, start: Status, i: RolloutIn)
    | AgentCollecting(base: Versioned)

  /** What the candidate answered a request: whether the case passed. */
  datatype AnswerEvent = AnswerEvent(ev: ClaimEvent, passed: bool)

  /** A promotion, with the status the store held when it committed and the
      number of the latest run start then. */
  datatype Promotion = Promotion(found: Status, i: RolloutIn, to: Digest, run: nat)

  /** What has happened, which no controller reads: the number of run starts,
      the claims committed, the requests sent and what each was answered, each
      revision's latest final verdict, and the promotions. */
  datatype History = History(
    run: nat,
    claims: seq<ClaimEvent>,
    sends: seq<ClaimEvent>,
    answers: seq<AnswerEvent>,
    last: map<Digest, Verdict>,
    promotions: seq<Promotion>)

  /** The latest change of the active revision was the enforced gate's. */
  predicate Earned(h: History) {
    && h.promotions != []
    && var p := h.promotions[|h.promotions| - 1];
       p.i.gating == GateEnforced && p.i.pin.NoPin?
  }

  datatype Sys = Sys(rv: nat, st: Status, nextNonce: Nonce, ctls: seq<Ctl>, agent: Agent, hist: History)

  /** How a write ends: acknowledged, committed with its response lost, or not committed. */
  datatype Net = Ack | Lost | Dropped

  datatype Action =
    | Read(c: nat, i: PassIn)
    | Write(c: nat, net: Net)
    | Send(c: nat, passed: bool, text: nat)
    | Record(c: nat, net: Net)
    | Reread(c: nat)
    | Stop(c: nat)
    | AgentRead(rollout: RolloutIn)
    | AgentAuth(auth: Option<AuthStatus>, net: Net)
    | AgentFinish(auth: Option<AuthStatus>, net: Net)
    | AgentPrune(cards: seq<Card>, net: Net)
    | AgentStop

  function Init(st: Status, controllers: nat): Sys {
    Sys(0, st, 0, seq(controllers, _ => Idle), AgentIdle, History(0, [], [], [], map[], []))
  }

  /** The API server stores a write against the current version; one that
      changes nothing leaves the version alone. */
  function Put(s: Sys, st: Status): Sys {
    if st == s.st then s else s.(rv := s.rv + 1, st := st)
  }

  function Stored(s: Sys): Versioned { Versioned(s.rv, s.st) }

  predicate Commits(s: Sys, base: Versioned, net: Net) {
    base.rv == s.rv && !net.Dropped?
  }

  function WithCtl(s: Sys, c: nat, ctl: Ctl): Sys
    requires c < |s.ctls|
  {
    s.(ctls := s.ctls[c := ctl])
  }

  /** The controller after a committed write: it goes on only if it was told. */
  function Told(s: Sys, c: nat, net: Net, next: Ctl): Sys
    requires c < |s.ctls|
  {
    WithCtl(s, c, if net.Ack? then next else Idle)
  }

  /** status.eval as a pass's patch leaves it. */
  function Patched(st: Status, i: PassIn, w: EvalWrite, nonce: Nonce): Option<EvalStatus> {
    match w
    case Nothing => st.eval
    case ClearRun => if st.eval.Some? then Some(Cleared(st.eval.value)) else None
    case SyncBlocked(blocked, _) =>
      if i.suite.SuiteOf? then Some(Synced(st, i.suite.suite, blocked)) else st.eval
    case StartRun(endpoint, card) =>
      if i.suite.SuiteOf? then Some(Started(st, i.suite.suite, endpoint, card)) else st.eval
    case Interrupt(id) =>
      if st.eval.Some? && i.suite.SuiteOf? && id in st.eval.value.cases then
        Some(WithOutcome(st.eval.value, st.candidateDigest, i.suite.suite, id,
                         Entry(CaseFailed, Interrupted, st.eval.value.cases[id].claim)))
      else st.eval
    case Claim(id) => if st.eval.Some? then Some(ClaimedCase(st.eval.value, id, nonce)) else None
  }

  /** The latest final verdicts after a write of status.eval. */
  function Latest(last: map<Digest, Verdict>, was: Option<EvalStatus>, now: Option<EvalStatus>): map<Digest, Verdict> {
    if now.Some? && (now.value.verdict == Passed || now.value.verdict == Failed)
       && (was.None? || was.value.verdict != now.value.verdict)
    then last[now.value.revision := now.value.verdict] else last
  }

  /** A committed patch of status.eval, and what it adds to the history. */
  function PutEval(s: Sys, eval: Option<EvalStatus>): Sys {
    Put(s, s.st.(eval := eval)).(hist := s.hist.(last := Latest(s.hist.last, s.st.eval, eval)))
  }

  function StepWrite(s: Sys, c: nat, net: Net): Sys
    requires c < |s.ctls| && s.ctls[c].InPass?
  {
    var base, i, inRun := s.ctls[c].base, s.ctls[c].i, s.ctls[c].inRun;
    var w := Decide(base.st, i, inRun);
    if w.Nothing? || !Commits(s, base, net) then WithCtl(s, c, Idle)
    else
      var s1 := PutEval(s, Patched(base.st, i, w, s.nextNonce));
      if w.StartRun? then Told(s1.(hist := s1.hist.(run := s.hist.run + 1)), c, net, InPass(Stored(s1), i, true))
      else if w.SyncBlocked? then Told(s1, c, net, if w.proceed then InPass(Stored(s1), i, true) else Idle)
      else if w.Claim? then
        var ev := ClaimEvent(s.hist.run, w.id, s.nextNonce);
        var s2 := s1.(nextNonce := s.nextNonce + 1, hist := s1.hist.(claims := s.hist.claims + [ev]));
        if i.suite.SuiteOf? then Told(s2, c, net, Claimed(Stored(s1), base.st.candidateDigest, i.suite.suite, ev))
        else WithCtl(s2, c, Idle)
      else WithCtl(s1, c, Idle)
  }

  function AnswerEntry(passed: bool, text: nat, nonce: Nonce): Entry {
    Entry(if passed then CasePassed else CaseFailed, Answered(text), nonce)
  }

  function StepRecord(s: Sys, c: nat, net: Net): Sys
    requires c < |s.ctls| && s.ctls[c].Recording?
  {
    var ctl := s.ctls[c];
    if ctl.base.rv != s.rv then WithCtl(s, c, Rereading(ctl.revision, ctl.suite, ctl.ev, ctl.entry))
    else if net.Dropped? || ctl.base.st.eval.None? then WithCtl(s, c, Idle)
    else
      var eval := WithOutcome(ctl.base.st.eval.value, ctl.revision, ctl.suite, ctl.ev.id, ctl.entry);
      WithCtl(PutEval(s, Some(eval)), c, Idle)
  }

  /** The claim stands: the same pair, this nonce at this id, still Sending. */
  predicate Stands(st: Status, revision: Digest, suite: Suite, id: CaseId, nonce: Nonce) {
    && Matched(st.eval, revision, suite)
    && id in st.eval.value.cases
    && st.eval.value.cases[id].outcome == Sending
    && st.eval.value.cases[id].claim == nonce
  }

  function StepReread(s: Sys, c: nat): Sys
    requires c < |s.ctls| && s.ctls[c].Rereading?
  {
    var ctl := s.ctls[c];
    WithCtl(s, c,
      if Stands(s.st, ctl.revision, ctl.suite, ctl.ev.id, ctl.ev.nonce)
      then Recording(Stored(s), ctl.revision, ctl.suite, ctl.ev, ctl.entry) else Idle)
  }

  /** persistStatus: the stored status with this pass's auth, ahead of the write it authorizes. */
  function StepAgentAuth(s: Sys, auth: Option<AuthStatus>, net: Net): Sys
    requires s.agent.AgentPass?
  {
    var a := s.agent;
    var st := a.base.st.(auth := auth);
    if st == a.base.st then s
    else if !Commits(s, a.base, net) then s.(agent := AgentIdle)
    else
      var s1 := Put(s, st);
      s1.(agent := if net.Ack? then a.(base := Stored(s1)) else AgentIdle)
  }

  /** The pass's closing write: the whole status its rollout left. */
  function StepAgentFinish(s: Sys, auth: Option<AuthStatus>, net: Net): Sys
    requires s.agent.AgentPass?
  {
    var a := s.agent;
    var st := Roll(a.start, a.i).(auth := auth);
    if st == a.base.st then s.(agent := AgentCollecting(a.base))
    else if !Commits(s, a.base, net) then s.(agent := AgentIdle)
    else
      var s1 := Put(s, st);
      s1.(agent := if net.Ack? then AgentCollecting(Stored(s1)) else AgentIdle,
          hist := if st.activeDigest == s.st.activeDigest then s.hist
                  else s.hist.(promotions := s.hist.promotions + [Promotion(s.st, a.i, st.activeDigest, s.hist.run)]))
  }

  /** collectGarbage's write: cards of revisions no longer retained go. */
  function StepAgentPrune(s: Sys, cards: seq<Card>, net: Net): Sys
    requires s.agent.AgentCollecting?
  {
    var a := s.agent;
    (if a.base.st.cards == cards || !Commits(s, a.base, net) then s
     else Put(s, a.base.st.(cards := cards))).(agent := AgentIdle)
  }

  function Step(s: Sys, a: Action): Sys {
    match a
    case Read(c, i) =>
      if c < |s.ctls| && s.ctls[c].Idle? then WithCtl(s, c, InPass(Stored(s), i, false)) else s
    case Write(c, net) => if c < |s.ctls| && s.ctls[c].InPass? then StepWrite(s, c, net) else s
    case Send(c, passed, text) =>
      if c < |s.ctls| && s.ctls[c].Claimed? then
        var ctl := s.ctls[c];
        WithCtl(s, c, Recording(ctl.base, ctl.revision, ctl.suite, ctl.ev, AnswerEntry(passed, text, ctl.ev.nonce)))
        .(hist := s.hist.(sends := s.hist.sends + [ctl.ev], answers := s.hist.answers + [AnswerEvent(ctl.ev, passed)]))
      else s
    case Record(c, net) => if c < |s.ctls| && s.ctls[c].Recording? then StepRecord(s, c, net) else s
    case Reread(c) => if c < |s.ctls| && s.ctls[c].Rereading? then StepReread(s, c) else s
    case Stop(c) => if c < |s.ctls| then WithCtl(s, c, Idle) else s
    case AgentRead(i) => if s.agent.AgentIdle? then s.(agent := AgentPass(Stored(s), s.st, i)) else s
    case AgentAuth(auth, net) => if s.agent.AgentPass? then StepAgentAuth(s, auth, net) else s
    case AgentFinish(auth, net) => if s.agent.AgentPass? then StepAgentFinish(s, auth, net) else s
    case AgentPrune(cards, net) => if s.agent.AgentCollecting? then StepAgentPrune(s, cards, net) else s
    case AgentStop => s.(agent := AgentIdle)
  }

  function Run(s: Sys, actions: seq<Action>): Sys {
    if actions == [] then s else Step(Run(s, actions[..|actions| - 1]), actions[|actions| - 1])
  }
}
