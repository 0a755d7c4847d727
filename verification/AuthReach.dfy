/**
 Runs the machine has: what is wanted is served where nothing stands in the way,
 by a Create from nothing and by a Lock of what is served or adopted, and the
 runs on which a comment of the source fails.
 */
module AuthReach {
  import opened Types
  import opened SendPredicates
  import opened AuthMachine
  import opened AuthHistory
  import opened AuthSafety
  import opened AuthCourse

  /** Some run leads from one state to the other. */
  ghost predicate Onto(s: AuthSys, t: AuthSys) {
    exists actions: seq<Action> :: t == Run(s, actions)
  }

  lemma OntoSelf(s: AuthSys)
    ensures Onto(s, s)
  {
    assert Run(s, []) == s;
  }

  lemma StepOnto(s: AuthSys, t: AuthSys, a: Action)
    requires Onto(s, t)
    ensures Onto(s, Step(t, a))
  {
    hide Step;
    var actions: seq<Action> :| t == Run(s, actions);
    assert (actions + [a])[..|actions|] == actions;
    assert Run(s, actions + [a]) == Step(t, a);
  }

  lemma {:induction false} RunsCompose(s: AuthSys, first: seq<Action>, more: seq<Action>)
    ensures Run(Run(s, first), more) == Run(s, first + more)
  {
    hide Step;
    if more == [] {
      assert first + more == first;
    } else {
      var front := more[..|more| - 1];
      RunsCompose(s, first, front);
      assert (first + more)[..|first + more| - 1] == first + front;
    }
  }

  lemma OntoReachable(s: AuthSys, t: AuthSys)
    requires Reachable(s) && Onto(s, t)
    ensures Reachable(t)
  {
    var route: Option<Route>, policy: Option<Policy>, actions: seq<Action> :|
      !Own(policy) && s == Run(Init(route, policy), actions);
    var more: seq<Action> :| t == Run(s, more);
    RunsCompose(Init(route, policy), actions, more);
  }

  /** Everything goes well: the answers under which nothing is in the way. */
  const SMOOTH: Answers :=
    Answers(true, Put, Some(Route([1], false, true)), true, false, true, true, 401, 0, true,
            CommitAck, Unknown, Unknown, Unknown)

  function Smoothly(s: AuthSys, operations: nat): AuthSys
    decreases operations
  {
    if operations == 0 then s else Smoothly(Advance(s, SMOOTH), operations - 1)
  }

  lemma {:induction false} SmoothlyOnto(s: AuthSys, t: AuthSys, operations: nat)
    requires Onto(s, t)
    ensures Onto(s, Smoothly(t, operations))
    decreases operations
  {
    hide Advance, Onto;
    if operations != 0 {
      StepOnto(s, t, Do(SMOOTH));
      SmoothlyOnto(s, Advance(t, SMOOTH), operations - 1);
    }
  }

  /** The operations of a served pass. */
  lemma ServedOperations(w: World, l: Local, x: Answers)
    ensures Advance(AuthSys(w, ServedPolicy(l)), x) == ServedPolicyStep(w, l, x)
    ensures Advance(AuthSys(w, ServedReassert(l)), x) == ReassertStep(w, l, x)
    ensures Advance(AuthSys(w, ServedEnsure(l)), x) == ServedEnsureStep(w, l, x)
    ensures x.ok && l.auth.Some? && RouteUp(x.seen) ==> Advance(AuthSys(w, ServedRoute(l)), x) == At(w, ServedPolicy(l))
  {
    hide ServedPolicyStep, ReassertStep, ServedEnsureStep;
  }

  /** The served pass of an Agent whose policy is not its own: read present,
      left alone, and the route moved all the same. */
  lemma ServedPassOverForeign(w: World, l: Local)
    requires l.auth == w.auth && Settled(w.auth, ApiKey) && RouteUp(w.route) && w.policy.Some? && !Own(w.policy)
    requires w.route.value.backends != [l.i.active]
    ensures var t := Smoothly(AuthSys(w, ServedRoute(l)), 4).w;
            && t.auth == w.auth && t.policy == w.policy && t.log != []
            && End(t.log) == RouteWritten(w.auth, RouteFor(Publish(ApiKey), l.i.active), false)
  {
    var s := AuthSys(w, ServedRoute(l));
    hide Advance;
    ServedOperations(w, l, SMOOTH);
    var s1 := Advance(s, SMOOTH);
    assert s1 == AuthSys(w, ServedPolicy(l));
    var s2 := Advance(s1, SMOOTH);
    assert s2 == AuthSys(Log(w, PolicySeen(w.policy)), ServedReassert(l));
    ServedOperations(s2.w, l, SMOOTH);
    var s3 := Advance(s2, SMOOTH);
    ServedOperations(s3.w, l, SMOOTH);
    assert s3.pc == ServedEnsure(l) && s3.w.route == w.route && s3.w.policy == w.policy;
    assert Smoothly(s, 4) == Smoothly(s1, 3) == Smoothly(s2, 2) == Smoothly(s3, 1) == Advance(s3, SMOOTH);
  }

  /** "Present and intact in the same pass" is more than the code does. From any
      served state a policy without this Agent's UID can be put at the name, and
      the next promotion still moves the route onto the new revision. */
  lemma ServedRouteOverForeignPolicy(s: AuthSys, rev: Rev, digest: Digest) returns (t: AuthSys)
    requires s.pc.Idle? && Settled(s.w.auth, ApiKey) && RouteUp(s.w.route)
    requires rev != 0 && s.w.route.value.backends != [rev]
    ensures Onto(s, t) && t.w.log != []
    ensures End(t.w.log) == RouteWritten(s.w.auth, Route([rev], false, true), false)
    ensures t.w.auth == s.w.auth && t.w.policy == Some(Policy(false, digest))
  {
    hide Advance, Smoothly, Onto;
    OntoSelf(s);
    var s1 := Step(s, MovePolicy(Some(Policy(false, digest))));
    StepOnto(s, s, MovePolicy(Some(Policy(false, digest))));
    var i := AuthIn(ApiKey, true, 0, rev, [], false, false, 0);
    var l := Local(i, s.w.auth, true, ClaimsOf(s.w.auth), false);
    var s2 := Step(s1, Begin(i));
    StepOnto(s, s1, Begin(i));
    assert s2 == AuthSys(Log(s1.w, Began(i)), ServedRoute(l));
    ServedPassOverForeign(s2.w, l);
    t := Smoothly(s2, 4);
    SmoothlyOnto(s, s2, 4);
  }

  // --------------------------------------------------- what is wanted is served

  /** From nothing, a Create that meets nothing in its way serves the apikey
      wanted, on the serving revision, under the policy rendered. */
  lemma ServedIsReached(s0: AuthSys, i: AuthIn) returns (s: AuthSys)
    requires s0.pc.Idle? && s0.w.auth.None? && !RouteUp(s0.w.route) && s0.w.policy.None?
    requires Compiles(i) && i.desired == ApiKey && i.active != 0 && !i.foreign && !i.foreignOwn
    ensures Onto(s0, s) && s.pc.Idle? && Settled(s.w.auth, ApiKey) && s.w.auth.value.appliedDigest == i.rendered
    ensures s.w.route == Some(Route([i.active], false, true)) && Intact(s.w.policy, i.rendered)
  {
    hide Advance, Smoothly, Onto;
    var begun := Step(s0, Begin(i));
    OntoSelf(s0);
    StepOnto(s0, s0, Begin(i));
    EntersSmoothly(begun.w, i);
    var entered := Smoothly(begun, 2);
    SmoothlyOnto(s0, begun, 2);
    PreparesSmoothly(entered.w, entered.pc.l);
    var prepared := Smoothly(entered, 2);
    SmoothlyOnto(s0, entered, 2);
    AppliesSmoothly(prepared.w, prepared.pc.l);
    var applied := Smoothly(prepared, 2);
    SmoothlyOnto(s0, prepared, 2);
    ConvergesSmoothly(applied.w, applied.pc.l);
    var converged := Smoothly(applied, 3);
    SmoothlyOnto(s0, applied, 3);
    ProbesSmoothly(converged.w, converged.pc.l);
    var proved := Smoothly(converged, 3);
    SmoothlyOnto(s0, converged, 3);
    PublishesSmoothly(proved.w, proved.pc.l);
    var published := Smoothly(proved, 2);
    SmoothlyOnto(s0, proved, 2);
    ServesSmoothly(published.w, published.pc.l);
    s := Smoothly(published, 2);
    SmoothlyOnto(s0, published, 2);
  }

  /** A Create of apikey that nothing stands in the way of, at a stage, as both held and stored. */
  predicate OnItsWay(w: World, l: Local, stage: Stage) {
    && l.auth == w.auth && w.auth.Some? && ApiKeyCreate(w.auth) && AtStage(w.auth, stage) && w.auth.value.mode == Unset
    && TxOf(w.auth).value.targetDigest == l.i.rendered && l.i.active != 0 && !l.i.foreign && !l.i.foreignOwn
    && !l.served && Compiles(l.i) && l.i.desired == ApiKey
  }

  /** Prepared, under its own policy. */
  predicate Ready(w: World, l: Local) {
    w.route == Some(Route([], false, true)) && Intact(w.policy, l.i.rendered)
  }

  lemma EntersSmoothly(w: World, i: AuthIn)
    requires w.auth.None? && !RouteUp(w.route) && w.policy.None?
    requires Compiles(i) && i.desired == ApiKey && i.active != 0 && !i.foreign && !i.foreignOwn
    ensures var t := Smoothly(AuthSys(w, EntryRead(Local(i, None, false, NoClaims, false))), 2);
            && t.pc.CreateTurn? && OnItsWay(t.w, t.pc.l, PreparingRoute) && t.pc.l.i == i
            && t.w.policy.None?
  {
    hide Advance, Dispatch;
    var l := Local(i, None, false, NoClaims, false);
    var s := AuthSys(w, EntryRead(l));
    FirstOperations(w, l);
    var s1 := Advance(s, SMOOTH);
    assert Smoothly(s, 2) == Smoothly(s1, 1) == Advance(s1, SMOOTH);
  }

  /** The live read finds no published route, and the Create it leads to is stored. */
  lemma FirstOperations(w: World, l: Local)
    requires l.auth.None? && !RouteUp(w.route) && Compiles(l.i) && l.i.active != 0
    ensures Advance(AuthSys(w, EntryRead(l)), SMOOTH) == At(w, Saving(Stored(l, FreshCreate(l)), ToCreate))
    ensures var l1 := Stored(l, FreshCreate(l));
            Advance(AuthSys(w, Saving(l1, ToCreate)), SMOOTH) == At(Save(w, l1, Plain), CreateTurn(l1))
  {
    assert Dispatch(l) == Saving(Stored(l, FreshCreate(l)), ToCreate);
  }

  lemma PreparesSmoothly(w: World, l: Local)
    requires OnItsWay(w, l, PreparingRoute) && w.policy.None?
    ensures var t := Smoothly(AuthSys(w, CreateTurn(l)), 2);
            && t.pc.CreateTurn? && OnItsWay(t.w, t.pc.l, ApplyingPolicies)
            && t.w.route == Some(Route([], false, true)) && t.w.policy.None? && t.pc.l.i == l.i
  {
    var s := AuthSys(w, CreateTurn(l));
    var s1 := Advance(s, SMOOTH);
    assert Smoothly(s, 2) == Smoothly(s1, 1) == Advance(s1, SMOOTH);
  }

  lemma AppliesSmoothly(w: World, l: Local)
    requires OnItsWay(w, l, ApplyingPolicies) && w.route == Some(Route([], false, true)) && w.policy.None?
    ensures var t := Smoothly(AuthSys(w, CreateTurn(l)), 2);
            t.pc.CreateTurn? && OnItsWay(t.w, t.pc.l, Converging) && Ready(t.w, t.pc.l) && t.pc.l.i == l.i
  {
    var s := AuthSys(w, CreateTurn(l));
    var s1 := Advance(s, SMOOTH);
    assert Smoothly(s, 2) == Smoothly(s1, 1) == Advance(s1, SMOOTH);
  }

  lemma ConvergesSmoothly(w: World, l: Local)
    requires OnItsWay(w, l, Converging) && Ready(w, l)
    ensures var t := Smoothly(AuthSys(w, CreateTurn(l)), 3);
            t.pc.CreateTurn? && OnItsWay(t.w, t.pc.l, ProbingAfter) && Ready(t.w, t.pc.l) && t.pc.l.i == l.i
  {
    var s := AuthSys(w, CreateTurn(l));
    var s1 := Advance(s, SMOOTH);
    assert s1.pc == CreatePolicy(l, false);
    var s2 := Advance(s1, SMOOTH);
    assert s2.pc == Saving(ToStage(l, TxOf(l.auth).value, ProbingAfter), ToCreate);
    assert Smoothly(s, 3) == Smoothly(s1, 2) == Smoothly(s2, 1) == Advance(s2, SMOOTH);
  }

  lemma ProbesSmoothly(w: World, l: Local)
    requires OnItsWay(w, l, ProbingAfter) && Ready(w, l)
    ensures var t := Smoothly(AuthSys(w, CreateTurn(l)), 3);
            t.pc.CreateTurn? && OnItsWay(t.w, t.pc.l, Publishing) && Ready(t.w, t.pc.l) && t.pc.l.i == l.i
  {
    var s := AuthSys(w, CreateTurn(l));
    var s1 := Advance(s, SMOOTH);
    assert s1.pc == CreatePolicy(l, false);
    var s2 := Advance(s1, SMOOTH);
    assert s2.pc == Saving(ToStage(l, TxOf(l.auth).value, Publishing), ToCreate);
    assert Smoothly(s, 3) == Smoothly(s1, 2) == Smoothly(s2, 1) == Advance(s2, SMOOTH);
  }

  lemma PublishesSmoothly(w: World, l: Local)
    requires OnItsWay(w, l, Publishing) && Ready(w, l)
    ensures var t := Smoothly(AuthSys(w, CreateTurn(l)), 2);
            && t.pc == Saving(Stored(l, ServedRecord(TxOf(l.auth).value)).(served := true), ToWait)
            && t.w.route == Some(Route([l.i.active], false, true)) && t.w.policy == w.policy
  {
    var s := AuthSys(w, CreateTurn(l));
    var s1 := Advance(s, SMOOTH);
    assert s1.pc == PublishRoute(l);
    assert Smoothly(s, 2) == Smoothly(s1, 1) == Advance(s1, SMOOTH);
  }

  lemma ServesSmoothly(w: World, l: Local)
    requires l.auth.Some? && l.auth.value.tx.None?
    ensures var t := Smoothly(AuthSys(w, Saving(l, ToWait)), 2);
            && t.pc.Idle? && Settled(t.w.auth, l.auth.value.mode)
            && t.w.auth.value.appliedDigest == l.auth.value.appliedDigest
            && t.w.route == w.route && t.w.policy == w.policy
  {
    var s := AuthSys(w, Saving(l, ToWait));
    var s1 := Advance(s, SMOOTH);
    assert s1.pc == Closing(l, false);
    ClosesSmoothly(s1.w, l);
    assert Smoothly(s, 2) == Smoothly(s1, 1) == Advance(s1, SMOOTH);
  }

  /** The same for none, which is published at once with its marker. */
  lemma NoneIsReached(s0: AuthSys, i: AuthIn) returns (s: AuthSys)
    requires s0.pc.Idle? && s0.w.auth.None? && !RouteUp(s0.w.route)
    requires Compiles(i) && i.desired == NoAuth && i.active != 0 && !i.foreign
    ensures Onto(s0, s) && s.pc.Idle? && Settled(s.w.auth, NoAuth) && s.w.policy == s0.w.policy
    ensures s.w.route == Some(Route([i.active], true, true))
  {
    hide Advance, Smoothly, Onto;
    var begun := Step(s0, Begin(i));
    OntoSelf(s0);
    StepOnto(s0, s0, Begin(i));
    NoneEntersSmoothly(begun.w, i);
    var entered := Smoothly(begun, 4);
    SmoothlyOnto(s0, begun, 4);
    ServesSmoothly(entered.w, entered.pc.l);
    s := Smoothly(entered, 2);
    SmoothlyOnto(s0, entered, 2);
  }

  lemma NoneEntersSmoothly(w: World, i: AuthIn)
    requires w.auth.None? && !RouteUp(w.route) && Compiles(i) && i.desired == NoAuth && i.active != 0 && !i.foreign
    ensures var t := Smoothly(AuthSys(w, EntryRead(Local(i, None, false, NoClaims, false))), 4);
            && t.pc.Saving? && t.pc.next == ToWait && Settled(t.pc.l.auth, NoAuth)
            && t.w.route == Some(Route([i.active], true, true)) && t.w.policy == w.policy
  {
    hide Advance, Dispatch;
    var l := Local(i, None, false, NoClaims, false);
    var l1 := Stored(l, FreshCreate(l));
    FirstOperations(w, l);
    var s1 := At(w, Saving(l1, ToCreate));
    var s2 := At(Save(w, l1, Plain), CreateTurn(l1));
    NonePublishes(s2.w, l1);
    assert Smoothly(AuthSys(w, EntryRead(l)), 4) == Smoothly(s1, 3) == Smoothly(s2, 2);
  }

  lemma NonePublishes(w: World, l: Local)
    requires l.auth == Some(FreshCreate(l)) && l.i.desired == NoAuth && l.i.active != 0 && !l.i.foreign
    ensures var t := Smoothly(AuthSys(w, CreateTurn(l)), 2);
            && t.pc.Saving? && t.pc.next == ToWait && Settled(t.pc.l.auth, NoAuth)
            && t.w.route == Some(Route([l.i.active], true, true)) && t.w.policy == w.policy
  {
    var s := AuthSys(w, CreateTurn(l));
    var s1 := Advance(s, SMOOTH);
    assert s1.pc == PublishRoute(l);
    assert Smoothly(s, 2) == Smoothly(s1, 1) == Advance(s1, SMOOTH);
  }

  // ---------------------------------------------------------- by a Lock

  /** A Lock of what is not served under apikey, that nothing stands in the way
      of, at a stage, as both held and stored, with its route published. */
  predicate Locking(w: World, l: Local, stage: Stage) {
    && l.auth == w.auth && HasTx(w.auth, Lock) && AtStage(w.auth, stage) && w.auth.value.mode != ApiKey
    && TxOf(w.auth).value.targetMode == ApiKey && TxOf(w.auth).value.targetDigest == l.i.rendered
    && l.i.active != 0 && !l.i.foreign && !l.i.foreignOwn && !l.served
  }

  /** The route a Lock's pass keeps meanwhile. */
  function Meanwhile(l: Local): Route { Route([l.i.active], ModeOf(l.auth) == NoAuth, true) }

  predicate LockTurning(s: AuthSys, i: AuthIn, stage: Stage) {
    && s.pc.LockTurn? && s.pc.l.i == i && Locking(s.w, s.pc.l, stage)
    && s.pc.rt == Meanwhile(s.pc.l) && s.w.route == Some(s.pc.rt)
  }

  /** Whether the Lock's before-state was observed, on the serving revision. */
  predicate Seeing(s: AuthSys, i: AuthIn, observed: bool) {
    && TxOf(s.w.auth).Some? && TxOf(s.w.auth).value.beforeObserved == observed
    && (observed ==> TxOf(s.w.auth).value.beforeRevision == i.active)
  }

  lemma LocksSmoothly(s0: AuthSys, i: AuthIn)
    requires Inv(s0) && s0.pc.Idle? && (WantsJ2(s0.w.auth, i) || WantsK2(s0.w.auth, i))
    requires !i.foreign && !i.foreignOwn
    ensures var t := Smoothly(Step(s0, Begin(i)), 2);
            && LockTurning(t, i, ProbingBefore) && t.w.policy == s0.w.policy && |t.w.log| > |s0.w.log|
            && Seeing(t, i, false)
  {
    hide Inv, Advance, AuthOk;
    EntersOn(s0, i);
    var s := Step(s0, Begin(i));
    PassBegins(s0, i);
    LockSaves(s.w, s.pc.l);
    var s1 := At(Save(s.w, s.pc.l, Plain), LockEnter(s.pc.l));
    LockFinds(s1.w, s.pc.l);
    assert Smoothly(s, 2) == Smoothly(s1, 1) == Advance(s1, SMOOTH);
  }

  lemma LockSaves(w: World, l: Local)
    ensures Advance(AuthSys(w, Saving(l, ToLock)), SMOOTH) == At(Save(w, l, Plain), LockEnter(l))
    ensures forall rt ::
              Advance(AuthSys(w, Saving(l, ToLockWith(rt))), SMOOTH) == At(Save(w, l, Plain), LockTurn(l, rt))
  {
  }

  lemma LockFinds(w: World, l: Local)
    requires Locking(w, l, ProbingBefore) && TxOf(l.auth).value.beforeRevision == 0
    requires !TxOf(l.auth).value.beforeObserved
    ensures var t := Advance(AuthSys(w, LockEnter(l)), SMOOTH);
            && LockTurning(t, l.i, ProbingBefore) && t.w.policy == w.policy && w.log <= t.w.log
            && Seeing(t, l.i, false)
  {
  }

  lemma AsksSmoothly(s: AuthSys, i: AuthIn, x: Answers)
    requires LockTurning(s, i, ProbingBefore) && Seeing(s, i, false)
    ensures var t := Smoothly(Advance(s, x), 1);
            var observed := x.ok && x.code == 200 && x.body != 0 && FirstCardIs(i.cards, i.active, x.body);
            && LockTurning(t, i, ApplyingPolicies) && t.w.policy == s.w.policy && |t.w.log| > |s.w.log|
            && Seeing(t, i, observed)
  {
    hide FirstCardIs, BeforeRevisionFor;
    BeforeExactly(i.cards, s.pc.rt, x.code, x.body);
    var s1 := Advance(s, x);
    LockSaves(s1.w, s1.pc.l);
    assert Smoothly(s1, 1) == Advance(s1, SMOOTH);
  }

  lemma LockAppliesSmoothly(s: AuthSys, i: AuthIn, observed: bool)
    requires LockTurning(s, i, ApplyingPolicies) && s.w.policy.None? && Seeing(s, i, observed)
    ensures var t := Smoothly(s, 2);
            && LockTurning(t, i, Converging) && Intact(t.w.policy, i.rendered) && |t.w.log| > |s.w.log|
            && Seeing(t, i, observed)
  {
    var s1 := Advance(s, SMOOTH);
    LockSaves(s1.w, s1.pc.l);
    assert Smoothly(s, 2) == Smoothly(s1, 1) == Advance(s1, SMOOTH);
  }

  lemma LockConvergesSmoothly(s: AuthSys, i: AuthIn, observed: bool)
    requires LockTurning(s, i, Converging) && Intact(s.w.policy, i.rendered) && Seeing(s, i, observed)
    ensures var t := Smoothly(s, 2);
            && LockTurning(t, i, ProbingAfter) && t.w.policy == s.w.policy && |t.w.log| > |s.w.log|
            && Seeing(t, i, observed)
  {
    var s1 := Advance(s, SMOOTH);
    LockSaves(s1.w, s1.pc.l);
    assert Smoothly(s, 2) == Smoothly(s1, 1) == Advance(s1, SMOOTH);
  }

  lemma LockProbesSmoothly(s: AuthSys, i: AuthIn, observed: bool)
    requires LockTurning(s, i, ProbingAfter) && Intact(s.w.policy, i.rendered) && Seeing(s, i, observed)
    requires CardedRevision(i.cards, i.active)
    ensures var t := Smoothly(s, 2);
            && t.pc.Saving? && t.pc.next == ToMarker && t.pc.l.i == i && Settled(t.pc.l.auth, ApiKey)
            && t.pc.l.auth.value.appliedDigest == i.rendered
            && t.w.policy == s.w.policy && t.w.route == s.w.route
            && |t.w.log| > |s.w.log| && End(t.w.log).LockCredited?
            && End(t.w.log).tie ==
               Attribution(true, if observed then Some(i.active) else None, Some(i.active), true)
  {
    hide CardedRevision, AttributesFrom;
    AttributesExactly(i.cards, i.active);
    CardedExactly(i);
    CardedAttributes(i);
    var s1 := Advance(s, SMOOTH);
    assert s1.pc == LockProbe(s.pc.l, s.pc.rt, false, true);
    assert Smoothly(s, 2) == Smoothly(s1, 1) == Advance(s1, SMOOTH);
  }

  lemma CardedAttributes(i: AuthIn)
    requires CardedRevision(i.cards, i.active)
    ensures AttributesFrom(i.cards, i.active)
  {
    AttributesExactly(i.cards, i.active);
  }

  lemma LockServesSmoothly(w: World, l: Local)
    requires Settled(l.auth, ApiKey) && l.i.active != 0 && w.route.Some?
    ensures var t := Smoothly(AuthSys(w, Saving(l, ToMarker)), 3);
            && t.pc.Idle? && Settled(t.w.auth, ApiKey) && t.w.auth.value.appliedDigest == l.auth.value.appliedDigest
            && t.w.route == Some(Route([l.i.active], false, true)) && t.w.policy == w.policy && w.log <= t.w.log
  {
    hide Advance;
    LockMarks(w, l);
    var s, s1 := AuthSys(w, Saving(l, ToMarker)), At(Save(w, l, Plain), LockMarker(l));
    LockMarks(s1.w, l);
    var s2 := Advance(s1, SMOOTH);
    ClosesSmoothly(s2.w, l);
    assert Smoothly(s, 3) == Smoothly(s1, 2) == Smoothly(s2, 1) == Advance(s2, SMOOTH);
  }

  lemma LockMarks(w: World, l: Local)
    requires Settled(l.auth, ApiKey) && w.route.Some?
    ensures Advance(AuthSys(w, Saving(l, ToMarker)), SMOOTH) == At(Save(w, l, Plain), LockMarker(l))
    ensures var t := Advance(AuthSys(w, LockMarker(l)), SMOOTH);
            && t.pc == Closing(l, false) && t.w.auth == w.auth && t.w.policy == w.policy
            && t.w.route == Some(Route([l.i.active], false, true)) && w.log <= t.w.log
  {
  }

  lemma ClosesSmoothly(w: World, l: Local)
    requires l.auth.Some? && l.auth.value.tx.None?
    ensures var t := Advance(AuthSys(w, Closing(l, false)), SMOOTH);
            && t.pc.Idle? && Settled(t.w.auth, l.auth.value.mode)
            && t.w.auth.value.appliedDigest == l.auth.value.appliedDigest
            && t.w.route == w.route && t.w.policy == w.policy && w.log <= t.w.log
  {
  }

  /** An edit to apikey is obeyed: from any state served under none, or adopted
      and refused under another mode first, a Lock that meets nothing in its way
      ends served under apikey, on the policy rendered, the marker gone. Its
      401 is tied by the before-state exactly when the answer before the policy
      was the serving revision's own card, and otherwise by that card. */
  lemma LockIsReached(s0: AuthSys, i: AuthIn, x: Answers) returns (s: AuthSys, k: nat)
    requires Inv(s0) && s0.pc.Idle? && (WantsJ2(s0.w.auth, i) || WantsK2(s0.w.auth, i))
    requires s0.w.policy.None? && !i.foreign && !i.foreignOwn && CardedRevision(i.cards, i.active)
    ensures Onto(s0, s) && s.pc.Idle? && Settled(s.w.auth, ApiKey) && s.w.auth.value.appliedDigest == i.rendered
    ensures s.w.route == Some(Route([i.active], false, true)) && Intact(s.w.policy, i.rendered)
    ensures |s0.w.log| < k < |s.w.log| && s.w.log[k].LockCredited?
    ensures var observed := x.ok && x.code == 200 && x.body != 0 && FirstCardIs(i.cards, i.active, x.body);
            s.w.log[k].tie == Attribution(true, if observed then Some(i.active) else None, Some(i.active), true)
  {
    hide Advance, Smoothly, Onto, Inv, FirstCardIs, CardedRevision, LockTurning;
    var begun := Step(s0, Begin(i));
    OntoSelf(s0);
    StepOnto(s0, s0, Begin(i));
    LocksSmoothly(s0, i);
    var before := Smoothly(begun, 2);
    SmoothlyOnto(s0, begun, 2);
    var observed := x.ok && x.code == 200 && x.body != 0 && FirstCardIs(i.cards, i.active, x.body);
    AsksSmoothly(before, i, x);
    var asked := Advance(before, x);
    StepOnto(s0, before, Do(x));
    var applying := Smoothly(asked, 1);
    SmoothlyOnto(s0, asked, 1);
    LockAppliesSmoothly(applying, i, observed);
    var converging := Smoothly(applying, 2);
    SmoothlyOnto(s0, applying, 2);
    LockConvergesSmoothly(converging, i, observed);
    var probing := Smoothly(converging, 2);
    SmoothlyOnto(s0, converging, 2);
    LockProbesSmoothly(probing, i, observed);
    var proved := Smoothly(probing, 2);
    SmoothlyOnto(s0, probing, 2);
    LockServesSmoothly(proved.w, proved.pc.l);
    s := Smoothly(proved, 3);
    SmoothlyOnto(s0, proved, 3);
    k := |proved.w.log| - 1;
  }

  /** Both together, from nothing: an Agent wanted under none is served under
      none, and once wanted under apikey is locked in place. */
  lemma EditIsObeyed(none: AuthIn, apikey: AuthIn, x: Answers) returns (s: AuthSys, t: AuthSys)
    requires Compiles(none) && none.desired == NoAuth && none.active != 0 && !none.foreign
    requires Compiles(apikey) && apikey.desired == ApiKey && !apikey.foreign && !apikey.foreignOwn
    requires CardedRevision(apikey.cards, apikey.active)
    ensures Reachable(s) && Settled(s.w.auth, NoAuth) && s.w.route == Some(Route([none.active], true, true))
    ensures Onto(s, t) && Settled(t.w.auth, ApiKey) && t.w.auth.value.appliedDigest == apikey.rendered
    ensures t.w.route == Some(Route([apikey.active], false, true)) && Intact(t.w.policy, apikey.rendered)
  {
    hide Onto, Reachable, Inv, CardedRevision;
    var start := Init(None, None);
    StartReachable();
    s := NoneIsReached(start, none);
    OntoReachable(start, s);
    ReachableInv(s);
    CardedExactly(apikey);
    var k;
    t, k := LockIsReached(s, apikey, x);
  }

  lemma StartReachable()
    ensures Reachable(Init(None, None))
  {
    assert Run(Init(None, None), []) == Init(None, None);
  }
}
