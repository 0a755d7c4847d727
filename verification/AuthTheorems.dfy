/**
 What every run of the `-auth` transaction machine promises, said over its history.
 */
module AuthTheorems {
  import opened Types
  import opened SendPredicates
  import opened AuthMachine
  import opened AuthHistory
  import opened AuthSafety

  // --------------------------------------- the history tells what happened

  /** An entry an operation adds says what the operation found and was told. */
  predicate Truthful(w: World, t: World, l: Local, x: Answers, e: Event) {
    match e
    case Saved(was, now, how) =>
      && was == w.auth && now == t.auth && (how.AfterServed? <==> l.served)
      && (how.Judgement? ==>
            how.route in {Unknown, x.route} && how.policy in {Unknown, x.policy} && how.keys in {Unknown, x.keys})
    case PolicySeen(found) => found == w.policy
    case PolicyRead(found, target) =>
      found == w.policy && TxOf(l.auth).Some? && target == TxOf(l.auth).value.targetDigest
    case Reasserted(found, left, rendered, applied) =>
      && found == w.policy && left == t.policy && rendered == l.i.rendered
      && l.auth.Some? && applied == l.auth.value.appliedDigest
    case BeforeAnswered(auth, _, cards, code, body) =>
      auth == w.auth && x.ok && cards == l.i.cards && code == x.code && body == x.body
    case Credited(auth, a) =>
      auth == w.auth && a == Answer(x.nack, l.i.foreign, x.cleanBefore, x.code, x.cleanAfter)
    case LockCredited(auth, a, tie) =>
      && auth == w.auth && a.foreign == l.i.foreign && a.code == x.code && a.cleanAfter == x.cleanAfter
      && tie.converged == x.converged
    case RouteWritten(auth, rt, created) => auth == w.auth && t.route == Some(rt) && created == w.route.None?
    case PolicyWritten(auth, digest) =>
      auth == w.auth && (w.policy.Some? ==> Own(w.policy)) && t.policy == Some(Policy(true, digest))
    case PolicyDeleted(auth, published) => auth == w.auth && published == RouteUp(w.route) && Own(w.policy)
    case _ => true
  }

  /** Every change an operation makes has its entry: a route that gains
      backendRefs, a policy written or deleted, and a status.auth stored; and
      every entry it adds is truthful. */
  predicate Noted(w: World, t: World, l: Local, x: Answers) {
    && w.log <= t.log
    && (t.route != w.route && RouteUp(t.route) ==> |t.log| > |w.log| && t.log[|w.log|].RouteWritten?)
    && (t.policy != w.policy ==>
          && |t.log| > |w.log|
          && (if t.policy.Some? then t.log[|w.log|].PolicyWritten? else t.log[|w.log|].PolicyDeleted?))
    && (t.auth != w.auth ==> |t.log| == |w.log| + 1 && t.log[|w.log|].Saved?)
    && forall k :: |w.log| <= k < |t.log| ==> Truthful(w, t, l, x, t.log[k])
  }

  lemma RoutedNoted(w: World, pub: Publication, l: Local, active: Rev, op: RouteOp, x: Answers)
    ensures Noted(w, Routed(w, pub, active, op).0, l, x)
  {
  }

  lemma UnchangedNoted(w: World, l: Local, x: Answers)
    ensures Noted(w, w, l, x)
  {
  }

  lemma WrittenNoted(w: World, digest: Digest, l: Local, x: Answers)
    requires Writable(w.policy)
    ensures Noted(w, WritePolicy(w, digest), l, x)
  {
  }

  lemma CreateNoted(w: World, l: Local, x: Answers)
    ensures Noted(w, CreateStep(w, l, x).w, l, x)
  {
    hide Routed, WritePolicy, Noted;
    RoutedNoted(w, PublicationFor(l.auth), l, l.i.active, x.op, x);
    UnchangedNoted(w, l, x);
    if TxOf(l.auth).Some? {
      ReadNoted(w, l, x);
      if Writable(w.policy) {
        WrittenNoted(w, TxOf(l.auth).value.targetDigest, l, x);
      }
    }
  }

  lemma ReadNoted(w: World, l: Local, x: Answers)
    requires TxOf(l.auth).Some?
    ensures Noted(w, Log(w, PolicyRead(w.policy, TxOf(l.auth).value.targetDigest)), l, x)
  {
  }

  lemma PublishNoted(w: World, l: Local, x: Answers)
    ensures Noted(w, PublishStep(w, l, x).w, l, x)
  {
    hide Routed, Noted;
    RoutedNoted(w, PublicationFor(l.auth), l, l.i.active, x.op, x);
    UnchangedNoted(w, l, x);
  }

  lemma CreatePolicyNoted(w: World, l: Local, created: bool, x: Answers)
    ensures Noted(w, CreatePolicyStep(w, l, created, x).w, l, x)
  {
  }

  lemma LockEnterNoted(w: World, l: Local, x: Answers)
    ensures Noted(w, LockEnterStep(w, l, x).w, l, x)
  {
    hide Routed, Noted;
    RoutedNoted(w, PublicationFor(l.auth), l, l.i.active, x.op, x);
    UnchangedNoted(w, l, x);
  }

  lemma LockNoted(w: World, l: Local, rt: Route, x: Answers)
    ensures Noted(w, LockStep(w, l, rt, x).w, l, x)
  {
    hide Routed, WritePolicy, LockPolicyStep;
    UnchangedNoted(w, l, x);
    if TxOf(l.auth).Some? {
      LockPolicyNoted(w, l, rt, x);
      if Writable(w.policy) {
        WrittenNoted(w, TxOf(l.auth).value.targetDigest, l, x);
      }
    }
  }

  lemma LockPolicyNoted(w: World, l: Local, rt: Route, x: Answers)
    requires TxOf(l.auth).Some?
    ensures Noted(w, LockPolicyStep(w, l, TxOf(l.auth).value, rt, x).w, l, x)
  {
  }

  lemma RepointNoted(w: World, l: Local, nacked: bool, clean: bool, x: Answers)
    ensures Noted(w, LockRepointStep(w, l, nacked, clean, x).w, l, x)
  {
    hide Routed, Noted;
    RoutedNoted(w, PublicationFor(l.auth), l, l.i.active, x.op, x);
    UnchangedNoted(w, l, x);
  }

  lemma ProbeNoted(w: World, l: Local, rt: Route, nacked: bool, clean: bool, x: Answers)
    ensures Noted(w, LockProbeStep(w, l, rt, nacked, clean, x).w, l, x)
  {
  }

  lemma SaveNoted(w: World, l: Local, next: Next, err: bool, x: Answers)
    ensures Noted(w, SaveStep(w, l, next, x.commit).w, l, x) && Noted(w, CloseStep(w, l, err, x).w, l, x)
  {
  }

  lemma AdoptNoted(w: World, l: Local, x: Answers)
    ensures Noted(w, AdoptStep(w, l, x).w, l, x)
  {
    hide Routed, Noted;
    RoutedNoted(w, PublicationFor(l.auth), l, l.i.active, x.op, x);
    UnchangedNoted(w, l, x);
  }

  lemma AbandonNoted(w: World, l: Local, x: Answers)
    ensures Noted(w, AbandonRouteStep(w, l, x).w, l, x) && Noted(w, AbandonPolicyStep(w, l, x).w, l, x)
  {
  }

  lemma ServedPolicyNoted(w: World, l: Local, x: Answers)
    ensures Noted(w, ServedPolicyStep(w, l, x).w, l, x) && Noted(w, ReassertStep(w, l, x).w, l, x)
  {
  }

  lemma ServedEnsureNoted(w: World, l: Local, x: Answers)
    ensures Noted(w, ServedEnsureStep(w, l, x).w, l, x)
  {
    hide Routed, Noted;
    RoutedNoted(w, PublicationFor(l.auth), l, l.i.active, x.op, x);
    UnchangedNoted(w, l, x);
  }

  lemma RestNoted(w: World, pc: Pc, x: Answers)
    requires pc.EntryRead? || pc.AbandonDelete? || pc.AbandonConfirm? || pc.AbandonPolicyConfirm? || pc.CollectAll?
             || pc.LockMarker? || pc.ServedRoute?
    ensures Noted(w, Advance(AuthSys(w, pc), x).w, pc.l, x)
  {
  }

  /** The history misses nothing the operator does to the route, the policy or
      status.auth, and what it says of reads, answers and credits is what was
      read, answered and stored at the time. */
  lemma HistoryIsComplete(s: AuthSys, x: Answers)
    requires !s.pc.Idle?
    ensures Noted(s.w, Advance(s, x).w, s.pc.l, x)
  {
    hide Noted, AdoptStep, AbandonRouteStep, AbandonPolicyStep, CreateStep, CreatePolicyStep, PublishStep,
      LockEnterStep, LockStep, LockRepointStep, LockProbeStep, ServedPolicyStep, ReassertStep, ServedEnsureStep,
      SaveStep, CloseStep;
    var w := s.w;
    match s.pc
    case AdoptEnsure(l) => AdoptNoted(w, l, x);
    case AbandonRoute(l) => AbandonNoted(w, l, x);
    case AbandonPolicy(l) => AbandonNoted(w, l, x);
    case CreateTurn(l) => CreateNoted(w, l, x);
    case CreatePolicy(l, created) => CreatePolicyNoted(w, l, created, x);
    case PublishRoute(l) => PublishNoted(w, l, x);
    case LockEnter(l) => LockEnterNoted(w, l, x);
    case LockTurn(l, rt) => LockNoted(w, l, rt, x);
    case LockRepoint(l, rt, nacked, clean) => RepointNoted(w, l, nacked, clean, x);
    case LockProbe(l, rt, nacked, clean) => ProbeNoted(w, l, rt, nacked, clean, x);
    case ServedPolicy(l) => ServedPolicyNoted(w, l, x);
    case ServedReassert(l) => ServedPolicyNoted(w, l, x);
    case ServedEnsure(l) => ServedEnsureNoted(w, l, x);
    case Saving(l, next) => SaveNoted(w, l, next, false, x);
    case Closing(l, err) => SaveNoted(w, l, ToWait, err, x);
    case _ => RestNoted(w, s.pc, x);
  }

  /** What a Lock's probe was handed is what its own turn read: the NACKs and
      the Gateway before the answer, and the route it was asked about. */
  lemma ProbeCarries(s: AuthSys, x: Answers)
    requires s.pc.LockTurn? || s.pc.LockRepoint? || s.pc.LockProbe?
    ensures var t := Advance(s, x);
            && (s.pc.LockTurn? && (t.pc.LockProbe? || t.pc.LockRepoint?) ==>
                  t.pc.rt == s.pc.rt && t.pc.nacked == x.nack && t.pc.clean == x.cleanBefore)
            && (s.pc.LockRepoint? && t.pc.LockProbe? ==>
                  && t.pc.rt == RouteFor(PublicationFor(s.pc.l.auth), s.pc.l.i.active)
                  && t.pc.nacked == s.pc.nacked && t.pc.clean == s.pc.clean)
            && (s.pc.LockProbe? && |t.w.log| > |s.w.log| && t.w.log[|s.w.log|].LockCredited? ==>
                  var e := t.w.log[|s.w.log|];
                  && e.answer.nacked == s.pc.nacked && e.answer.cleanBefore == s.pc.clean
                  && e.tie.backend == SingleBackend(s.pc.rt))
  {
  }

  // ------------------------------------------------------ Create and Lock

  /** Create safety: every operator write that gives a Create's route
      backendRefs is made at Publishing, in a pass that began with a revision
      serving and no foreign policy, and puts that one revision there, marked
      exactly when it goes out under none. An API-key Create's follows a clean
      401 credited to that very transaction on its own policy, since which it
      has sat at nothing but Publishing, and a read of that policy, intact at
      the same digest, in the pass that publishes. */
  lemma CreateSafety(s: AuthSys, k: nat)
    requires Reachable(s) && k < |s.w.log| && s.w.log[k].RouteWritten?
    requires Published(s.w.log[k].rt) && HasTx(s.w.log[k].auth, Create)
    ensures AtStage(s.w.log[k].auth, Publishing)
    ensures exists b: nat ::
              && BeganAt(s.w.log[..k], b) && !s.w.log[b].i.foreign && s.w.log[b].i.active != 0
              && s.w.log[k].rt == Route([s.w.log[b].i.active], TxOf(s.w.log[k].auth).value.targetMode == NoAuth, true)
    ensures ApiKeyCreate(s.w.log[k].auth) ==>
              && (exists j :: CreditedAt(s.w.log[..k], j, TxOf(s.w.log[k].auth).value))
              && (exists i :: IntactAt(s.w.log[..k], i, TxOf(s.w.log[k].auth).value.targetDigest))
  {
    ReachableInv(s);
    assert EntryOk(Read(s.w.log[..k]), s.w.log[k]);
    var b := InputFound(s.w.log[..k]);
    if ApiKeyCreate(s.w.log[k].auth) {
      var j := CreditFound(s.w.log[..k]);
      var i := IntactFound(s.w.log[..k]);
    }
  }

  /** How a Create or a Lock may end, over every run: its target served, a
      Create's from Publishing in a pass with a revision serving and no foreign
      policy; a missing-policy Lock given over to a re-creation; or given up by
      a pass that wants another mode, and then to exactly what it came from. */
  lemma TransactionsEnd(s: AuthSys, k: nat) returns (b: nat)
    requires Reachable(s) && k < |s.w.log| && s.w.log[k].Saved? && Ended(s.w.log[k].was, s.w.log[k].now)
    ensures BeganAt(s.w.log[..k], b)
    ensures var i, was, now := s.w.log[b].i, s.w.log[k].was, s.w.log[k].now;
            EndsServed(i, was, now) || EndsRecreating(was, now) || EndsGivenUp(i, was, now)
  {
    ReachableInv(s);
    assert EntryOk(Read(s.w.log[..k]), s.w.log[k]);
    b := InputFound(s.w.log[..k]);
  }

  /** Every route and every policy this operator writes is what the record then
      stored and the input of its own pass make it. */
  lemma WritesFollowTheRecord(s: AuthSys, k: nat) returns (b: nat)
    requires Reachable(s) && k < |s.w.log| && (s.w.log[k].RouteWritten? || s.w.log[k].PolicyWritten?)
    ensures BeganAt(s.w.log[..k], b)
    ensures s.w.log[k].RouteWritten? ==> RouteOf(s.w.log[b].i, s.w.log[k].auth, s.w.log[k].rt)
    ensures s.w.log[k].PolicyWritten? ==> PolicyOf(s.w.log[b].i, s.w.log[k].auth, s.w.log[k].digest)
  {
    ReachableInv(s);
    assert EntryOk(Read(s.w.log[..k]), s.w.log[k]);
    b := InputFound(s.w.log[..k]);
  }

  /** K2 is a second choice: a refused Adopt ends only in a Lock to apikey that
      its pass wants, after an earlier pass had wanted another mode, the one the
      Adopt records as refused. */
  lemma K2FollowsRefusal(s: AuthSys, k: nat) returns (j: nat, b: nat)
    requires Reachable(s) && k < |s.w.log| && s.w.log[k].Saved?
    requires HasTx(s.w.log[k].was, Adopt) && !HasTx(s.w.log[k].now, Adopt)
    ensures HasTx(s.w.log[k].now, Lock) && ModeOf(s.w.log[k].now) == Unset
    ensures BeganAt(s.w.log[..k], b) && s.w.log[b].i.desired == ApiKey && j < b
    ensures s.w.log[j].Began? && s.w.log[j].i.desired == TxOf(s.w.log[k].was).value.refusedMode
    ensures s.w.log[j].i.desired != Unset && s.w.log[j].i.desired != ApiKey
  {
    ReachableInv(s);
    var log, now := s.w.log[..k], s.w.log[k].now;
    assert EntryOk(Read(log), s.w.log[k]);
    assert Enters(s.w.log[k].was, now);
    j := AskedFound(log, TxOf(s.w.log[k].was).value.refusedMode);
    b := InputFound(log);
  }

  /** Lock attribution, and its Create counterpart: a transaction ends in mode
      apikey only on a 401 credited to it, on its policy read intact at the
      digest then recorded as applied; a Lock in the very pass, and where a
      200 seen before is what ties the answer, that 200 was answered in this
      Lock by the revision the route's one backendRef still names. */
  lemma ServedOnlyOnCredit(s: AuthSys, k: nat)
    requires Reachable(s) && k < |s.w.log| && s.w.log[k].Saved? && Settled(s.w.log[k].now, ApiKey)
    ensures HasTx(s.w.log[k].was, Lock) ==> exists j :: AttributedAt(s.w.log[..k], j, s.w.log[k].was)
    ensures ApiKeyCreate(s.w.log[k].was) ==> exists j :: CreditedAt(s.w.log[..k], j, TxOf(s.w.log[k].was).value)
    ensures HasTx(s.w.log[k].was, Lock) || ApiKeyCreate(s.w.log[k].was) ==>
              s.w.log[k].now.value.appliedDigest == TxOf(s.w.log[k].was).value.targetDigest
  {
    ReachableInv(s);
    assert EntryOk(Read(s.w.log[..k]), s.w.log[k]);
    if HasTx(s.w.log[k].was, Lock) {
      var j := AttributionFound(s.w.log[..k]);
    }
    if ApiKeyCreate(s.w.log[k].was) {
      var j := CreditFound(s.w.log[..k]);
    }
  }

  /** At every point of every run, a Lock whose record says a before-state was
      observed has that observation in its history. */
  lemma BeforeStateWasObserved(s: AuthSys)
    requires Reachable(s) && HasTx(s.w.auth, Lock) && TxOf(s.w.auth).value.beforeObserved
    ensures exists b :: ObservedAt(s.w.log, b, TxOf(s.w.auth).value)
  {
    ReachableInv(s);
    var b := ObservationFound(s.w.log, TxOf(s.w.auth).value);
  }

  /** A spec edit is never outrun: a Create that is not a re-creation publishes
      only in a pass that still wants its target mode, and no Create or Lock is
      entered but in a pass whose input compiles to its target with a revision
      serving. */
  lemma FollowsTheSpec(s: AuthSys, k: nat)
    requires Reachable(s) && k < |s.w.log|
    ensures s.w.log[k].RouteWritten? && Published(s.w.log[k].rt) ==>
              OnTarget(Read(s.w.log[..k]).input, s.w.log[k].auth)
    ensures s.w.log[k].Saved? && Enters(s.w.log[k].was, s.w.log[k].now) ==>
              MayEnter(Read(s.w.log[..k]).input, s.w.log[k].now)
  {
    ReachableInv(s);
    assert EntryOk(Read(s.w.log[..k]), s.w.log[k]);
  }

  /** No API-key route is ever created already published. */
  lemma NeverCreatedPublished(s: AuthSys, k: nat)
    requires Reachable(s) && k < |s.w.log| && s.w.log[k].RouteWritten? && s.w.log[k].created
    ensures ApiKeyRoute(s.w.log[k].auth) ==> !Published(s.w.log[k].rt)
  {
    ReachableInv(s);
    assert EntryOk(Read(s.w.log[..k]), s.w.log[k]);
  }

  /** Write-ahead, at every crash point: this Agent's policy exists only beside
      a stored record that was written before it, so never beside a settled
      mode none or a refused Adopt; and each write of it found that record. */
  lemma WrittenAhead(s: AuthSys)
    requires Reachable(s)
    ensures Own(s.w.policy) ==> Covers(s.w.auth)
    ensures Own(s.w.policy) ==> !Settled(s.w.auth, NoAuth) && !HasTx(s.w.auth, Adopt) && s.w.auth.Some?
    ensures forall k :: 0 <= k < |s.w.log| && s.w.log[k].PolicyWritten? ==> Covers(s.w.log[k].auth)
  {
    ReachableInv(s);
    forall k | 0 <= k < |s.w.log| && s.w.log[k].PolicyWritten?
      ensures Covers(s.w.log[k].auth)
    {
      assert EntryOk(Read(s.w.log[..k]), s.w.log[k]);
    }
  }

  /** Adopt never captures the operator's own route: from a start with no
      published route, an empty status.auth means the route is absent or
      carries no backendRefs, and no Adopt is ever recorded. */
  lemma AdoptNeverCaptures(s: AuthSys)
    requires Reachable(s) && s.w.emptyStart
    ensures s.w.auth.None? ==> !RouteUp(s.w.route)
    ensures !HasTx(s.w.auth, Adopt)
  {
    ReachableInv(s);
  }

  /** Policy after route: the operator deletes its policy only while the route
      is absent or stripped, unless it abandons a J2 or K2 Lock. */
  lemma PolicyGoesAfterRoute(s: AuthSys, k: nat)
    requires Reachable(s) && k < |s.w.log| && s.w.log[k].PolicyDeleted?
    ensures s.w.log[k].published ==> HasTx(s.w.log[k].auth, Lock) && !IsReCreation(s.w.log[k].auth)
  {
    ReachableInv(s);
    assert EntryOk(Read(s.w.log[..k]), s.w.log[k]);
  }

  /** One-way lock: once the stored mode is apikey, no further steps of any
      kind change the mode or the digest applied. */
  lemma {:induction false} LockedForever(s: AuthSys, actions: seq<Action>)
    requires Inv(s) && ModeOf(s.w.auth) == ApiKey
    ensures ModeOf(Run(s, actions).w.auth) == ApiKey
    ensures Run(s, actions).w.auth.value.appliedDigest == s.w.auth.value.appliedDigest
  {
    if actions != [] {
      LockedForever(s, actions[..|actions| - 1]);
      RunInv(s, actions[..|actions| - 1]);
      LockedStep(Run(s, actions[..|actions| - 1]), actions[|actions| - 1]);
    }
  }

  /** A step that moves status.auth appends the save that moved it. */
  lemma LockedStep(s: AuthSys, a: Action)
    requires Inv(s)
    ensures OneWay(s.w.auth, Step(s, a).w.auth)
  {
    hide Advance, PcOk, Read;
    StepInv(s, a);
    if a.Do? && !s.pc.Idle? {
      HistoryIsComplete(s, a.x);
      var log := Step(s, a).w.log;
      if Step(s, a).w.auth != s.w.auth {
        assert EntryOk(Read(log[..|s.w.log|]), log[|s.w.log|]);
        assert Truthful(s.w, Step(s, a).w, s.pc.l, a.x, log[|s.w.log|]);
      }
    } else if a.Do? {
      IdleStays(s, a.x);
    }
  }

  lemma IdleStays(s: AuthSys, x: Answers)
    requires s.pc.Idle?
    ensures Advance(s, x) == s
  {
  }

  /** No mutual wait, where it matters: wherever a J2 or K2 Lock is left waiting
      at ProbingAfter, the eval is let through exactly when no 401 through the
      route could end the Lock. */
  lemma WaitingLockAndGate(s: AuthSys, k: nat, st: Status)
    requires Reachable(s) && k < |s.w.log| && s.w.log[k].LockWaits? && !IsReCreation(s.w.log[k].auth)
    requires st.auth == s.w.log[k].auth && st.activeRev == s.w.log[k].active
    ensures HasTx(st.auth, Lock)
    ensures TransactionAdmits(st) <==> !Creditable(st, TxOf(st.auth).value, s.w.log[k].rt)
  {
    ReachableInv(s);
    assert EntryOk(Read(s.w.log[..k]), s.w.log[k]);
    NoMutualWait(st, s.w.log[k].rt);
  }

  // ------------------------------------------------------ the served route

  /** A served API-key route is updated only after this pass read a policy at
      the name, and then either found it intact as recorded, a Lock having just
      landed, or re-asserted it. The re-assert left it as recorded exactly when
      it was this Agent's own and the operator renders what is recorded, or it
      was that already. */
  lemma ServedRouteFollowsRead(s: AuthSys, k: nat)
    requires Reachable(s) && k < |s.w.log| && s.w.log[k].RouteWritten?
    requires Published(s.w.log[k].rt) && Settled(s.w.log[k].auth, ApiKey)
    ensures exists i :: PresentAt(s.w.log[..k], i)
    ensures var applied := s.w.log[k].auth.value.appliedDigest;
            || (exists j :: IntactAt(s.w.log[..k], j, applied))
            || (exists j :: ReassertedAt(s.w.log[..k], j, applied))
    ensures forall j :: 0 <= j < k && s.w.log[j].Reasserted? ==>
              ReassertOk(s.w.log[j].found, s.w.log[j].left, s.w.log[j].rendered, s.w.log[j].applied)
  {
    hide Read, PcOk, Savable, ReassertOk;
    ReachableInv(s);
    assert EntryOk(Read(s.w.log[..k]), s.w.log[k]);
    var i := PresenceFound(s.w.log[..k]);
    if Read(s.w.log[..k]).intact.Some? {
      var j := IntactFound(s.w.log[..k]);
    }
    if Read(s.w.log[..k]).reasserted.Some? {
      var j := ReassertFound(s.w.log[..k]);
    }
    ReassertsOk(s.w.log, k);
  }

  lemma ReassertsOk(log: seq<Event>, k: nat)
    requires LogOk(log) && k <= |log|
    ensures forall j :: 0 <= j < k && log[j].Reasserted? ==>
              ReassertOk(log[j].found, log[j].left, log[j].rendered, log[j].applied)
  {
    hide Read;
    forall j | 0 <= j < k && log[j].Reasserted?
      ensures ReassertOk(log[j].found, log[j].left, log[j].rendered, log[j].applied)
    {
      assert EntryOk(Read(log[..j]), log[j]);
    }
  }

  // -------------------------------------------------------- the claim store

  datatype Half = RouteHalf | PolicyHalf | KeyHalf

  function ReadingOf(e: Event, h: Half): Reading {
    if !e.Saved? || !e.how.Judgement? then Unknown
    else match h
      case RouteHalf => e.how.route
      case PolicyHalf => e.how.policy
      case KeyHalf => e.how.keys
  }

  predicate Claimed(c: Claims, h: Half) {
    match h
    case RouteHalf => c.routeRefused
    case PolicyHalf => c.policyUnattached
    case KeyHalf => c.keySourceEmpty
  }

  /** The last decisive reading since m was the bad one, or there was none and
      the claim stood already. */
  predicate LastBroken(log: seq<Event>, m: nat, stood: bool, h: Half) {
    || (exists j :: m <= j < |log| && ReadingOf(log[j], h) == Broken
                    && forall k :: j < k < |log| ==> ReadingOf(log[k], h) != Holding)
    || (stood && forall k :: m <= k < |log| ==> ReadingOf(log[k], h) != Holding)
  }

  predicate NoServedSince(log: seq<Event>, m: nat) {
    forall k :: m <= k < |log| && log[k].Saved? ==> !log[k].how.AfterServed?
  }

  /** An entry moves a claim as its reading says, unless it records Served. */
  lemma ReadingMoves(r: Readings, e: Event, h: Half)
    requires e.Saved? ==> !e.how.AfterServed?
    ensures Claimed(After(r, e).claims, h) <==>
              ReadingOf(e, h) == Broken || (ReadingOf(e, h) == Unknown && Claimed(r.claims, h))
  {
  }

  lemma {:induction false} ClaimsAreLastReadings(log: seq<Event>, m: nat, h: Half)
    requires m <= |log| && NoServedSince(log, m)
    ensures Claimed(Read(log).claims, h) <==> LastBroken(log, m, Claimed(Read(log[..m]).claims, h), h)
  {
    hide After, ReadingOf, Claimed;
    if |log| == m {
      assert log[..m] == log;
    } else {
      var front, stood := Front(log), Claimed(Read(log[..m]).claims, h);
      assert front[..m] == log[..m];
      ClaimsAreLastReadings(front, m, h);
      assert log[|log| - 1] == End(log);
      ReadingMoves(Read(front), End(log), h);
      match ReadingOf(End(log), h)
      case Broken =>
        assert ReadingOf(log[|log| - 1], h) == Broken;
      case Holding =>
        assert ReadingOf(log[|log| - 1], h) == Holding;
      case Unknown =>
        UnknownKeeps(log, m, stood, h);
    }
  }

  lemma UnknownKeeps(log: seq<Event>, m: nat, stood: bool, h: Half)
    requires m < |log| && ReadingOf(End(log), h) == Unknown
    ensures LastBroken(log, m, stood, h) <==> LastBroken(Front(log), m, stood, h)
  {
    var front := Front(log);
    assert forall k :: 0 <= k < |front| ==> front[k] == log[k];
    if j :| m <= j < |front| && ReadingOf(front[j], h) == Broken
            && forall k :: j < k < |front| ==> ReadingOf(front[k], h) != Holding {
      assert ReadingOf(log[j], h) == Broken;
    }
    if j :| m <= j < |log| && ReadingOf(log[j], h) == Broken
            && forall k :: j < k < |log| ==> ReadingOf(log[k], h) != Holding {
      assert ReadingOf(front[j], h) == Broken;
    }
  }

  /** The claim store is a latch over its readings: from any stored status on,
      until a pass records Served, each claim says exactly that its last
      decisive reading was the bad one, or that it stood and none has been
      decisive since, through unknown readings, errored passes, stops, refused
      Adopts, K2 entries and J2 abandonments. */
  lemma LatchRefinesHistory(s: AuthSys, m: nat, h: Half)
    requires Reachable(s) && m <= |s.w.log| && NoServedSince(s.w.log, m)
    requires m == 0 || s.w.log[m - 1].Saved?
    ensures var stood := m != 0 && Claimed(ClaimsOf(s.w.log[m - 1].now), h);
            Claimed(ClaimsOf(s.w.auth), h) <==> LastBroken(s.w.log, m, stood, h)
  {
    ReachableInv(s);
    var log := s.w.log;
    ClaimsAreLastReadings(log, m, h);
    if m != 0 {
      assert EntryOk(Read(log[..m - 1]), log[m - 1]);
      assert Front(log[..m]) == log[..m - 1] && End(log[..m]) == log[m - 1];
    }
  }
}
