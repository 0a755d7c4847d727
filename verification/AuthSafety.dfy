/**
 What every operation of the `-auth` transaction machine keeps, whatever stops it
 and whatever the environment deletes, edits or plants.
 */
module AuthSafety {
  import opened Types
  import opened SendPredicates
  import opened AuthMachine
  import opened AuthHistory

  // -------------------------------------------------------- the invariant

  predicate CreateOk(a: AuthStatus, tx: Tx) {
    && (if a.mode == Unset then a.claims == NoClaims
        else a.mode == ApiKey && tx.targetMode == ApiKey && tx.targetDigest == a.appliedDigest)
    && (if tx.targetMode == ApiKey
        then tx.stage != Refused && tx.stage != ProbingBefore && (tx.stage == PreparingRoute || tx.written)
        else tx.targetMode == NoAuth && tx.stage == Publishing && !tx.written)
  }

  predicate LockOk(a: AuthStatus, tx: Tx) {
    && tx.targetMode == ApiKey
    && tx.stage != Refused && tx.stage != PreparingRoute && tx.stage != Publishing
    && (if tx.stage == ProbingBefore then !tx.beforeObserved else tx.written)
    && (tx.beforeObserved <==> tx.beforeRevision != 0)
    && (a.mode == ApiKey ==> tx.targetDigest == a.appliedDigest && !tx.beforeObserved && tx.stage != ProbingBefore)
  }

  predicate AuthOk(a: AuthStatus) {
    && a.mode != OAuth
    && match a.tx
       case None => a.mode != Unset
       case Some(tx) =>
         match tx.kind
         case Adopt => a.mode == Unset && tx.stage == Refused && !tx.written
         case Create => CreateOk(a, tx)
         case Lock => LockOk(a, tx)
  }

  /** A status.auth that may be stored next to the objects as they stand. */
  predicate Savable(w: World, a: Option<AuthStatus>) {
    && (a.Some? ==> AuthOk(a.value))
    && (Own(w.policy) ==> Covers(a))
    && (w.emptyStart ==>
          && (a.None? ==> !RouteUp(w.route))
          && !HasTx(a, Adopt) && !(HasTx(a, Lock) && ModeOf(a) == Unset))
    && OneWay(w.auth, a)
    && var r := Read(w.log);
       && (AtPublishing(a) ==> r.credit == TxOf(a))
       && (HasTx(a, Lock) && TxOf(a).value.beforeRevision != 0 ==> r.before == Some(Core(TxOf(a).value)))
       && (Enters(w.auth, a) ==> MayEnter(r.input, a))
       && (Ended(w.auth, a) ==> EndsWell(r.input, w.auth, a))
       && AdoptOk(r.asked, w.auth, a)
       && (HasTx(w.auth, Lock) && Settled(a, ApiKey) ==>
             r.lockCredit == w.auth && a.value.appliedDigest == TxOf(w.auth).value.targetDigest)
       && (ApiKeyCreate(w.auth) && Settled(a, ApiKey) ==>
             r.credit == TxOf(w.auth) && a.value.appliedDigest == TxOf(w.auth).value.targetDigest)
  }

  /** The pass's reads of the policy, at its transaction's target. */
  predicate ReadIntact(w: World, auth: Option<AuthStatus>) {
    && TxOf(auth).Some? && Read(w.log).intact == Some(TxOf(auth).value.targetDigest) && Read(w.log).seen
  }

  /** The pass's working record may be stored, and holds the claims stored. */
  predicate Base(w: World, l: Local) {
    && Savable(w, l.auth) && Read(w.log).input == Some(l.i) && l.i.desired in Read(w.log).asked
    && (if l.served then ClaimsOf(l.auth) == NoClaims
        else ClaimsOf(l.auth) == ClaimsOf(w.auth) && l.stored == ClaimsOf(w.auth))
  }

  /** What the pass acts on is what is stored. */
  predicate Here(w: World, l: Local) {
    Base(w, l) && l.auth == w.auth && !l.served
  }

  /** The route a Lock's pass works with. */
  predicate RtOk(l: Local, rt: Route) {
    && HasTx(l.auth, Lock) && TxOf(l.auth).value.targetDigest == l.i.rendered
    && (TxOf(l.auth).value.beforeRevision != 0 ==> SingleBackend(rt) == Some(TxOf(l.auth).value.beforeRevision))
    && (!IsReCreation(l.auth) ==> l.i.active != 0 && rt.backends == [l.i.active])
  }

  predicate NextOk(l: Local, next: Next) {
    match next
    case ToDispatch => !l.served && (l.auth.None? || Settled(l.auth, NoAuth))
    case ToCreate => !l.served && HasTx(l.auth, Create) && OnTarget(Some(l.i), l.auth)
    case ToLock => !l.served && HasTx(l.auth, Lock)
    case ToLockWith(rt) => !l.served && RtOk(l, rt)
    case ToMarker => l.served && Settled(l.auth, ApiKey) && l.i.active != 0
    case ToWait => true
  }

  /** These pcs act on the record as it is stored. */
  predicate Acting(pc: Pc) {
    !pc.Idle? && !pc.Saving? && !pc.Closing? && !pc.CollectAll? && !pc.LockMarker?
  }

  predicate Abandoned(l: Local) {
    && (HasTx(l.auth, Create) || HasTx(l.auth, Lock)) && !IsReCreation(l.auth)
    && TxOf(l.auth).value.targetMode != l.i.desired
  }

  /** What the working record is at each pc. */
  predicate Shape(pc: Pc) {
    match pc
    case EntryRead(l) => l.auth.None?
    case AdoptEnsure(l) =>
      l.auth.None? || HasTx(l.auth, Adopt) || (HasTx(l.auth, Lock) && ModeOf(l.auth) == Unset && Abandoned(l))
    case AbandonRoute(l) => HasTx(l.auth, Create) && Abandoned(l)
    case AbandonDelete(l) => HasTx(l.auth, Create) && Abandoned(l)
    case AbandonConfirm(l) => HasTx(l.auth, Create) && Abandoned(l)
    case AbandonPolicy(l) => Abandoned(l)
    case AbandonPolicyConfirm(l) => Abandoned(l)
    case CreateTurn(l) =>
      HasTx(l.auth, Create) && Renders(TxOf(l.auth).value, l.i) && OnTarget(Some(l.i), l.auth)
    case CreatePolicy(l, _) =>
      && ApiKeyCreate(l.auth) && OnTarget(Some(l.i), l.auth)
      && (AtStage(l.auth, Converging) || AtStage(l.auth, ProbingAfter))
    case PublishRoute(l) => HasTx(l.auth, Create) && AtStage(l.auth, Publishing) && OnTarget(Some(l.i), l.auth)
    case LockEnter(l) => HasTx(l.auth, Lock)
    case LockTurn(l, rt) => RtOk(l, rt)
    case LockRepoint(l, rt, nacked, _) =>
      && RtOk(l, rt) && AtStage(l.auth, ProbingAfter) && !nacked && !l.i.foreign
      && IsReCreation(l.auth) && l.i.active != 0
    case LockProbe(l, rt, nacked, _) => RtOk(l, rt) && AtStage(l.auth, ProbingAfter) && !nacked && !l.i.foreign
    case LockMarker(l) => Settled(l.auth, ApiKey) && l.i.active != 0
    case ServedRoute(l) => Settled(l.auth, ApiKey) && l.i.active != 0
    case ServedPolicy(l) => Settled(l.auth, ApiKey) && l.i.active != 0
    case ServedReassert(l) => Settled(l.auth, ApiKey) && l.i.active != 0
    case ServedEnsure(l) => l.auth.Some? && l.auth.value.tx.None? && l.i.active != 0
    case Saving(l, next) => NextOk(l, next)
    case _ => true
  }

  /** What holds of the objects at each pc. */
  predicate Around(w: World, pc: Pc) {
    && (pc.AdoptEnsure? ==> !Own(w.policy) && !w.emptyStart)
    && (pc.AbandonDelete? || pc.AbandonConfirm? ==> !RouteUp(w.route))
    && (pc.AbandonPolicy? || pc.AbandonPolicyConfirm? ==> HasTx(pc.l.auth, Create) ==> !RouteUp(w.route))
    && (pc.PublishRoute? && ApiKeyCreate(pc.l.auth) ==> ReadIntact(w, pc.l.auth))
    && (pc.LockRepoint? || pc.LockProbe? ==> ReadIntact(w, pc.l.auth))
    && (pc.LockMarker? ==> pc.l.auth == w.auth && pc.l.served)
    && (pc.LockMarker? || (pc.Saving? && pc.next.ToMarker?) ==> ServedRead(Read(w.log), pc.l.auth))
    && (pc.ServedReassert? ==> Read(w.log).seen)
    && (pc.ServedEnsure? && Settled(pc.l.auth, ApiKey) ==> ServedRead(Read(w.log), pc.l.auth))
  }

  predicate PcOk(w: World, pc: Pc) {
    pc.Idle? ||
    (&& Base(w, pc.l)
     && (Acting(pc) ==> pc.l.auth == w.auth && !pc.l.served)
     && Shape(pc) && Around(w, pc))
  }

  predicate WorldOk(w: World) {
    LogOk(w.log) && Savable(w, w.auth) && ClaimsOf(w.auth) == Read(w.log).claims
  }

  predicate Inv(s: AuthSys) {
    WorldOk(s.w) && PcOk(s.w, s.pc)
  }

  lemma InitInv(route: Option<Route>, policy: Option<Policy>)
    requires !Own(policy)
    ensures Inv(Init(route, policy))
  {
  }

  // ------------------------------------------------------ pieces of a step

  /** The readings that stored records rest on are the same. */
  predicate SameGround(r: Readings, t: Readings) {
    && t.input == r.input && t.asked == r.asked && t.credit == r.credit && t.before == r.before
    && t.lockCredit == r.lockCredit && t.claims == r.claims
  }

  /** An entry on which no record is stored, and that no record rests on. */
  predicate Aside(e: Event) {
    !e.Saved? && !e.Began? && !e.Credited? && !e.LockCredited? && !e.BeforeAnswered?
  }

  /** The frame of a step that stores no status and moves to a pc that is right. */
  predicate Stays(w: World, t: World) {
    && t.auth == w.auth && t.emptyStart == w.emptyStart
    && LogOk(t.log) && SameGround(Read(w.log), Read(t.log))
    && (Own(t.policy) ==> Own(w.policy) || Covers(w.auth))
    && (RouteUp(t.route) ==> RouteUp(w.route) || w.auth.Some? || !w.emptyStart)
  }

  lemma StaysOk(w: World, t: World)
    requires WorldOk(w) && Stays(w, t)
    ensures WorldOk(t)
  {
  }

  /** A working record stays storable through a step that writes only what the
      stored record covers. */
  lemma BaseStays(w: World, t: World, l: Local)
    requires WorldOk(w) && Stays(w, t) && Base(w, l)
    requires Own(t.policy) ==> Own(w.policy) || Covers(l.auth)
    requires RouteUp(t.route) ==> RouteUp(w.route) || l.auth.Some? || !w.emptyStart
    ensures Base(t, l)
  {
  }

  /** What ensureServingRoute may write under a stored record. */
  predicate MayRoute(w: World) {
    && (AtPublishing(w.auth) ==> ReadIntact(w, w.auth))
    && (Settled(w.auth, ApiKey) ==> ServedRead(Read(w.log), w.auth))
    && OnTarget(Read(w.log).input, w.auth)
    && Read(w.log).input.Some?
    && (PublicationFor(w.auth).Publish? ==>
          var i := Read(w.log).input.value; i.active != 0 && (HasTx(w.auth, Create) ==> !i.foreign))
    && (w.emptyStart ==> w.auth.Some?)
  }

  lemma RouteEntryOk(w: World, active: Rev, created: bool)
    requires Savable(w, w.auth) && MayRoute(w) && active == Read(w.log).input.value.active
    requires created ==> PublicationFor(w.auth) != Publish(ApiKey)
    ensures EntryOk(Read(w.log), RouteWritten(w.auth, RouteFor(PublicationFor(w.auth), active), created))
  {
    hide Read;
    if ApiKeyCreate(w.auth) && !AtPublishing(w.auth) {
      assert PublicationFor(w.auth) == Prepared;
    }
  }

  lemma RoutedStays(w: World, active: Rev, op: RouteOp)
    requires WorldOk(w) && MayRoute(w) && active == Read(w.log).input.value.active
    ensures var (t, r) := Routed(w, PublicationFor(w.auth), active, op);
            Stays(w, t) && t.policy == w.policy && Read(t.log) == Read(w.log)
  {
    hide Read, LogOk, Savable, EntryOk;
    var pub := PublicationFor(w.auth);
    var (t, r) := Routed(w, pub, active, op);
    if t.route != w.route {
      RouteEntryOk(w, active, w.route.None?);
      LogGrows(w.log, RouteWritten(w.auth, RouteFor(pub, active), w.route.None?));
    }
  }

  lemma HereStays(w: World, t: World, l: Local)
    requires WorldOk(w) && Stays(w, t) && Here(w, l)
    ensures Here(t, l)
  {
  }

  lemma WritePolicyStays(w: World, l: Local, digest: Digest)
    requires WorldOk(w) && Here(w, l) && Covers(w.auth) && PolicyOf(l.i, w.auth, digest)
    ensures var t := WritePolicy(w, digest);
            Stays(w, t) && t.route == w.route && Here(t, l) && Read(t.log).seen == Read(w.log).seen
  {
    hide Read, LogOk;
    if !Intact(w.policy, digest) {
      LogGrows(w.log, PolicyWritten(w.auth, digest));
    }
  }

  // ---------------------------------------------------------- the switch

  lemma EnterLockOk(w: World, l: Local)
    requires Here(w, l) && (HasTx(l.auth, Adopt) || Settled(l.auth, NoAuth))
    requires HasTx(l.auth, Adopt) ==> K2Consent(TxOf(l.auth).value, l.i.desired)
    requires Compiles(l.i) && l.i.desired == ApiKey && l.i.active != 0
    ensures EnterLock(l).Saving? && Base(w, EnterLock(l).l)
    ensures !EnterLock(l).l.served && HasTx(EnterLock(l).l.auth, Lock)
  {
  }

  function FreshCreate(l: Local): AuthStatus {
    AuthStatus(Unset, 0,
      Some(NewTx(Create, l.i.desired, if l.i.desired == ApiKey then l.i.rendered else 0,
                 if l.i.desired == NoAuth then Publishing else PreparingRoute, false, l.i.deadline)), NoClaims)
  }

  lemma FreshCreateOk(w: World, l: Local)
    requires Base(w, l) && !l.served && l.auth.None? && Compiles(l.i) && l.i.active != 0
    requires Ended(w.auth, None) ==> EndsGivenUp(l.i, w.auth, None)
    ensures Base(w, Stored(l, FreshCreate(l))) && HasTx(Some(FreshCreate(l)), Create)
  {
  }

  lemma DispatchOk(w: World, l: Local)
    requires Base(w, l) && !l.served && (l.auth == w.auth || l.auth.None?)
    requires !HasTx(l.auth, Adopt) && !Abandons(l.auth, l.i.desired)
    requires l.auth.None? ==> w.auth.None? || EndsGivenUp(l.i, w.auth, None)
    ensures PcOk(w, Dispatch(l))
  {
    hide Read, LogOk;
    if l.auth.None? {
      if !Compiles(l.i) || l.i.active == 0 {
        assert Dispatch(l) == CollectAll(l);
      } else {
        FreshCreateOk(w, l);
        assert Dispatch(l) == Saving(Stored(l, FreshCreate(l)), ToCreate);
      }
    } else if l.auth.value.tx.None? {
      ServedDispatchOk(w, l);
    } else if HasTx(l.auth, Create) {
      assert Dispatch(l) == if Renders(TxOf(l.auth).value, l.i) then CreateTurn(l) else Closing(l, true);
    } else {
      assert Dispatch(l) == LockEnter(l);
    }
  }

  lemma ServedDispatchOk(w: World, l: Local)
    requires Here(w, l) && l.auth.Some? && l.auth.value.tx.None?
    ensures PcOk(w, Dispatch(l))
  {
    hide Savable, Read;
    Facts(w, l);
    assert l.auth.value.mode == NoAuth || l.auth.value.mode == ApiKey;
    if ModeOf(l.auth) == NoAuth && Compiles(l.i) && l.i.desired == ApiKey && l.i.active != 0 {
      EnterLockOk(w, l);
      assert Dispatch(l) == EnterLock(l);
    } else if l.i.active == 0 {
      assert Dispatch(l) == CollectAll(l);
    } else {
      assert Dispatch(l) == if ModeOf(l.auth) == ApiKey then ServedRoute(l) else ServedEnsure(l);
    }
  }

  lemma AdoptHeadOk(w: World, l: Local)
    requires Here(w, l) && HasTx(w.auth, Adopt)
    ensures PcOk(w, AdoptEnsure(l))
    ensures K2Consent(TxOf(l.auth).value, l.i.desired) && Compiles(l.i) && l.i.active != 0 ==> PcOk(w, EnterLock(l))
  {
    if K2Consent(TxOf(l.auth).value, l.i.desired) && Compiles(l.i) && l.i.active != 0 {
      EnterLockOk(w, l);
    }
    assert !Covers(l.auth);
  }

  lemma AbandonHeadOk(w: World, l: Local)
    requires Here(w, l) && Abandons(w.auth, l.i.desired)
    ensures PcOk(w, if HasTx(w.auth, Create) then AbandonRoute(l) else AbandonPolicy(l))
  {
    assert w.auth.value.mode != ApiKey;
    assert HasTx(w.auth, Create) || HasTx(w.auth, Lock);
  }

  lemma HeadOk(w: World, i: AuthIn)
    requires WorldOk(w) && Read(w.log).input == Some(i) && i.desired in Read(w.log).asked
    ensures PcOk(w, Head(w.auth, i))
  {
    var l := Local(i, w.auth, JudgesServed(w.auth), ClaimsOf(w.auth), false);
    assert Here(w, l);
    if HasTx(w.auth, Adopt) {
      AdoptHeadOk(w, l);
    } else if w.auth.None? {
      assert Head(w.auth, i) == EntryRead(l);
    } else if Abandons(w.auth, i.desired) {
      AbandonHeadOk(w, l);
    } else {
      DispatchOk(w, l);
      assert Head(w.auth, i) == Dispatch(l);
    }
  }

  lemma AbandonedCreateOk(w: World, l: Local)
    requires Here(w, l) && !Own(w.policy) && HasTx(l.auth, Create) && Abandoned(l) && !RouteUp(w.route)
    ensures PcOk(w, AbandonRecord(l))
  {
    var l1 := l.(auth := None);
    assert Base(w, l1);
    if Compiles(l.i) {
      DispatchOk(w, l1);
      assert AbandonRecord(l) == Dispatch(l1);
    } else {
      assert AbandonRecord(l) == Saving(l1, ToDispatch);
    }
  }

  lemma AbandonedLockOk(w: World, l: Local)
    requires Here(w, l) && !Own(w.policy) && HasTx(l.auth, Lock) && Abandoned(l)
    ensures PcOk(w, AbandonRecord(l))
  {
    if ModeOf(l.auth) == Unset {
      assert AbandonRecord(l) == AdoptEnsure(l);
    } else {
      var l1 := Stored(l, AuthStatus(ModeOf(l.auth), 0, None, ClaimsOf(l.auth)));
      assert Settled(l1.auth, NoAuth);
      assert Base(w, l1);
      assert AbandonRecord(l) == Saving(l1, ToDispatch);
    }
  }

  // ---------------------------------------------- records a pass stores next

  lemma CreateStageOk(w: World, l: Local, tx: Tx)
    requires Here(w, l) && ApiKeyCreate(l.auth)
    requires tx == TxOf(l.auth).value.(stage := tx.stage, written := tx.written)
    requires TxOf(l.auth).value.written ==> tx.written
    requires tx.stage != Refused && tx.stage != ProbingBefore && (tx.stage == PreparingRoute || tx.written)
    requires tx.stage == Publishing ==> Read(w.log).credit == Some(tx)
    ensures Base(w, Stored(l, WithTx(l.auth.value, tx))) && HasTx(Some(WithTx(l.auth.value, tx)), Create)
    ensures OnTarget(Some(l.i), l.auth) ==> OnTarget(Some(l.i), Some(WithTx(l.auth.value, tx)))
  {
  }

  lemma LockStageOk(w: World, l: Local, tx: Tx)
    requires Here(w, l) && HasTx(l.auth, Lock) && tx.kind == Lock && LockOk(l.auth.value, tx)
    requires TxOf(l.auth).value.written ==> tx.written
    requires tx.beforeRevision != 0 ==> Read(w.log).before == Some(Core(tx))
    ensures Base(w, Stored(l, WithTx(l.auth.value, tx))) && HasTx(Some(WithTx(l.auth.value, tx)), Lock)
  {
  }

  lemma RecreateOk(w: World, l: Local)
    requires Here(w, l) && ModeOf(l.auth) == ApiKey && !ApiKeyCreate(l.auth)
    ensures PcOk(w, Recreate(l))
  {
  }

  lemma LockMissingOk(w: World, l: Local)
    requires Here(w, l) && Settled(l.auth, ApiKey)
    ensures PcOk(w, LockMissing(l))
  {
  }

  lemma CreateServedOk(w: World, l: Local)
    requires WorldOk(w) && Here(w, l) && HasTx(l.auth, Create) && AtStage(l.auth, Publishing)
    requires l.i.active != 0 && !l.i.foreign
    ensures Base(w, Stored(l, ServedRecord(TxOf(l.auth).value)).(served := true))
  {
  }

  lemma LockServedOk(w: World, l: Local)
    requires WorldOk(w) && Here(w, l) && HasTx(l.auth, Lock) && Read(w.log).lockCredit == l.auth
    ensures Base(w, Stored(l, ServedRecord(TxOf(l.auth).value)).(served := true))
    ensures Settled(Some(ServedRecord(TxOf(l.auth).value)), ApiKey)
  {
  }

  lemma AdoptRecordOk(w: World, l: Local)
    requires Here(w, l) && PcOk(w, AdoptEnsure(l))
    ensures Base(w, Stored(l, AdoptRecord(l.auth, l.i.desired)))
  {
  }

  lemma Facts(w: World, l: Local)
    requires Base(w, l)
    ensures l.auth.Some? ==> AuthOk(l.auth.value)
    ensures Own(w.policy) ==> Covers(l.auth)
    ensures w.emptyStart ==> !HasTx(l.auth, Adopt) && (l.auth.None? ==> !RouteUp(w.route))
    ensures HasTx(l.auth, Lock) && TxOf(l.auth).value.beforeRevision != 0 ==>
              Read(w.log).before == Some(Core(TxOf(l.auth).value))
  {
  }

  lemma SavingOk(w: World, l: Local, next: Next)
    requires WorldOk(w) && Base(w, l) && NextOk(l, next)
    requires next.ToMarker? ==> ServedRead(Read(w.log), l.auth)
    ensures Inv(At(w, Saving(l, next)))
  {
  }

  lemma ClosingOk(w: World, l: Local)
    requires WorldOk(w) && Base(w, l)
    ensures Inv(At(w, Wait(l))) && Inv(At(w, Error(l)))
  {
    hide Savable, Read, LogOk;
  }

  lemma GoesOn(w: World, pc: Pc)
    requires WorldOk(w) && !pc.Idle? && Here(w, pc.l) && Shape(pc) && Around(w, pc) && !pc.LockMarker?
    ensures Inv(At(w, pc))
  {
  }

  lemma Lands(w: World, pc: Pc)
    requires WorldOk(w) && PcOk(w, pc)
    ensures Inv(At(w, pc))
  {
  }

  // ---------------------------------------------- what each operation keeps
  //
  // Each of these hides the definitions it has no need to open.

  /** ensureServingRoute under the stored record, with the pass still acting on it. */
  lemma RoutedOk(w: World, l: Local, op: RouteOp)
    requires WorldOk(w) && Here(w, l) && MayRoute(w)
    ensures var (t, r) := Routed(w, PublicationFor(l.auth), l.i.active, op);
            && WorldOk(t) && Here(t, l) && t.policy == w.policy && t.emptyStart == w.emptyStart
            && Read(t.log) == Read(w.log)
  {
    hide Read, LogOk, Routed;
    RoutedStays(w, l.i.active, op);
    var (t, r) := Routed(w, PublicationFor(l.auth), l.i.active, op);
    StaysOk(w, t);
    HereStays(w, t, l);
  }

  /** An entry in the history, with the pass still acting on the stored record. */
  lemma LoggedOk(w: World, l: Local, e: Event)
    requires WorldOk(w) && Here(w, l) && EntryOk(Read(w.log), e) && Aside(e)
    ensures WorldOk(Log(w, e)) && Here(Log(w, e), l) && Read(Log(w, e).log) == After(Read(w.log), e)
  {
    hide Read, LogOk, EntryOk;
    LogGrows(w.log, e);
    StaysOk(w, Log(w, e));
    HereStays(w, Log(w, e), l);
  }

  /** A read of the policy at the transaction's target. */
  lemma PolicyReadOk(w: World, l: Local)
    requires WorldOk(w) && Here(w, l) && TxOf(l.auth).Some?
    ensures var digest := TxOf(l.auth).value.targetDigest;
            var t := Log(w, PolicyRead(w.policy, digest));
            WorldOk(t) && Here(t, l) && (Intact(w.policy, digest) ==> ReadIntact(t, l.auth))
  {
    hide Read, LogOk, Savable;
    LoggedOk(w, l, PolicyRead(w.policy, TxOf(l.auth).value.targetDigest));
  }

  /** The same, where the operation also takes away a route or a policy. */
  lemma RemovedOk(w: World, t: World, l: Local, e: Event)
    requires WorldOk(w) && Here(w, l) && EntryOk(Read(w.log), e) && (e.RouteRemoved? || e.PolicyDeleted?)
    requires t == Log(w, e).(route := t.route, policy := t.policy)
    requires (RouteUp(t.route) ==> RouteUp(w.route)) && (Own(t.policy) ==> Own(w.policy))
    ensures WorldOk(t) && Here(t, l)
  {
    hide Read, LogOk, EntryOk;
    LogGrows(w.log, e);
    StaysOk(w, t);
    HereStays(w, t, l);
  }

  lemma PolicyWrittenOk(w: World, l: Local, digest: Digest)
    requires WorldOk(w) && Here(w, l) && Covers(w.auth) && PolicyOf(l.i, w.auth, digest)
    ensures WorldOk(WritePolicy(w, digest)) && Here(WritePolicy(w, digest), l)
    ensures Read(WritePolicy(w, digest).log).seen == Read(w.log).seen
  {
    hide Read, LogOk, WritePolicy;
    WritePolicyStays(w, l, digest);
    StaysOk(w, WritePolicy(w, digest));
  }

  lemma AdoptStepInv(w: World, l: Local, x: Answers)
    requires WorldOk(w) && PcOk(w, AdoptEnsure(l))
    ensures Inv(AdoptStep(w, l, x))
  {
    hide Inv, Savable, Read, LogOk;
    Facts(w, l);
    if l.i.active == 0 {
      AdoptRecordOk(w, l);
      SavingOk(w, Stored(l, AdoptRecord(l.auth, l.i.desired)), ToWait);
    } else {
      RoutedOk(w, l, x.op);
      var (t, r) := Routed(w, PublicationFor(l.auth), l.i.active, x.op);
      ClosingOk(t, l);
      AdoptRecordOk(t, l);
      SavingOk(t, Stored(l, AdoptRecord(l.auth, l.i.desired)), ToWait);
    }
  }

  lemma AbandonRouteInv(w: World, l: Local, x: Answers)
    requires WorldOk(w) && Here(w, l) && HasTx(l.auth, Create) && Abandoned(l)
    ensures Inv(AbandonRouteStep(w, l, x))
  {
    hide Inv, Savable, Read, LogOk;
    ClosingOk(w, l);
    if x.ok {
      var t := if RouteUp(w.route) then Log(w.(route := Some(w.route.value.(backends := []))), RouteRemoved) else w;
      if RouteUp(w.route) {
        RemovedOk(w, t, l, RouteRemoved);
      }
      GoesOn(t, AbandonDelete(l));
      GoesOn(t, AbandonPolicy(l));
    }
  }

  lemma AbandonDeleteInv(w: World, l: Local, x: Answers)
    requires WorldOk(w) && PcOk(w, AbandonDelete(l))
    ensures Inv(Advance(AuthSys(w, AbandonDelete(l)), x))
  {
    hide Inv, Savable, Read, LogOk;
    ClosingOk(w, l);
    if x.gone {
      RemovedOk(w, Log(w.(route := None), RouteRemoved), l, RouteRemoved);
      GoesOn(Log(w.(route := None), RouteRemoved), AbandonConfirm(l));
    } else {
      GoesOn(w, AbandonConfirm(l));
    }
  }

  lemma AbandonedOk(w: World, l: Local)
    requires WorldOk(w) && Here(w, l) && Abandoned(l) && !Own(w.policy)
    requires HasTx(l.auth, Create) ==> !RouteUp(w.route)
    ensures Inv(At(w, AbandonRecord(l)))
  {
    if HasTx(l.auth, Create) { AbandonedCreateOk(w, l); } else { AbandonedLockOk(w, l); }
    Lands(w, AbandonRecord(l));
  }

  /** The policy goes only after the route, unless a Lock is abandoned. */
  lemma AbandonPolicyInv(w: World, l: Local, x: Answers)
    requires WorldOk(w) && PcOk(w, AbandonPolicy(l))
    ensures Inv(AbandonPolicyStep(w, l, x))
  {
    hide Inv, Savable, Read, LogOk;
    Facts(w, l);
    ClosingOk(w, l);
    if !TxOf(l.auth).value.written || !Own(w.policy) {
      AbandonedOk(w, l);
    } else if x.ok {
      var e := PolicyDeleted(w.auth, RouteUp(w.route));
      var t := if x.gone then Log(w, e).(policy := None) else Log(w, e);
      RemovedOk(w, t, l, e);
      GoesOn(t, AbandonPolicyConfirm(l));
    }
  }

  lemma AbandonPolicyConfirmInv(w: World, l: Local, x: Answers)
    requires WorldOk(w) && PcOk(w, AbandonPolicyConfirm(l))
    ensures Inv(Advance(AuthSys(w, AbandonPolicyConfirm(l)), x))
  {
    hide Inv, Savable, Read, LogOk;
    ClosingOk(w, l);
    if w.policy.None? {
      AbandonedOk(w, l);
    }
  }

  lemma CollectAllInv(w: World, l: Local, x: Answers)
    requires WorldOk(w) && Base(w, l)
    ensures Inv(Advance(AuthSys(w, CollectAll(l)), x))
  {
    hide Inv, Savable, Read, LogOk, PcOk, Shape, Around;
    ClosingOk(w, l);
    if x.gone && w.route.Some? && w.route.value.labelled {
      var t := Log(w.(route := None), RouteRemoved);
      LogGrows(w.log, RouteRemoved);
      StaysOk(w, t);
      BaseStays(w, t, l);
      ClosingOk(t, l);
    }
  }

  lemma CreateApplyInv(w: World, l: Local, x: Answers)
    requires WorldOk(w) && Here(w, l) && ApiKeyCreate(l.auth) && AtStage(l.auth, ApplyingPolicies)
    requires OnTarget(Some(l.i), l.auth) && TxOf(l.auth).value.targetDigest == l.i.rendered
    ensures Inv(CreateStep(w, l, x))
  {
    hide Inv, Savable, Read, LogOk, PcOk, Shape, Around;
    Facts(w, l);
    ClosingOk(w, l);
    var tx := TxOf(l.auth).value;
    if !l.i.foreignOwn {
      var t := WritePolicy(w, tx.targetDigest);
      PolicyWrittenOk(w, l, tx.targetDigest);
      CreateStageOk(t, l, tx.(stage := Converging));
      SavingOk(t, ToStage(l, tx, Converging), ToCreate);
    }
  }

  lemma CreatePublishInv(w: World, l: Local, x: Answers)
    requires WorldOk(w) && Here(w, l) && AtPublishing(l.auth)
    requires OnTarget(Some(l.i), l.auth)
    ensures Inv(CreateStep(w, l, x))
  {
    hide Inv, Savable, Read, LogOk;
    Facts(w, l);
    ClosingOk(w, l);
    var tx := TxOf(l.auth).value;
    var t := Log(w, PolicyRead(w.policy, tx.targetDigest));
    PolicyReadOk(w, l);
    if Intact(w.policy, tx.targetDigest) {
      GoesOn(t, PublishRoute(l));
    } else {
      CreateStageOk(t, l, tx.(stage := PreparingRoute));
      SavingOk(t, ToStage(l, tx, PreparingRoute), ToCreate);
    }
  }

  lemma CreateRouteInv(w: World, l: Local, x: Answers)
    requires WorldOk(w) && Here(w, l) && ApiKeyCreate(l.auth)
    requires AtStage(l.auth, PreparingRoute) || AtStage(l.auth, Converging) || AtStage(l.auth, ProbingAfter)
    requires OnTarget(Some(l.i), l.auth)
    ensures Inv(CreateStep(w, l, x))
  {
    hide Inv, Savable, Read, LogOk;
    Facts(w, l);
    var tx := TxOf(l.auth).value;
    RoutedOk(w, l, x.op);
    var (t, r) := Routed(w, PublicationFor(l.auth), l.i.active, x.op);
    ClosingOk(t, l);
    if r.Got? {
      if tx.stage == PreparingRoute {
        CreateStageOk(t, l, tx.(written := true, stage := ApplyingPolicies));
        SavingOk(t, ToStage(l, tx.(written := true), ApplyingPolicies), ToCreate);
      } else {
        GoesOn(t, CreatePolicy(l, r.created));
      }
    }
  }

  lemma CreateStepInv(w: World, l: Local, x: Answers)
    requires WorldOk(w) && PcOk(w, CreateTurn(l))
    ensures Inv(CreateStep(w, l, x))
  {
    hide Inv, Savable, Read, LogOk;
    Facts(w, l);
    if AtStage(l.auth, Publishing) {
      if ApiKeyCreate(l.auth) { CreatePublishInv(w, l, x); } else { GoesOn(w, PublishRoute(l)); }
    } else if AtStage(l.auth, ApplyingPolicies) {
      CreateApplyInv(w, l, x);
    } else {
      CreateRouteInv(w, l, x);
    }
  }

  lemma CreatePolicyInv(w: World, l: Local, created: bool, x: Answers)
    requires WorldOk(w) && Here(w, l) && ApiKeyCreate(l.auth)
    requires AtStage(l.auth, Converging) || AtStage(l.auth, ProbingAfter)
    requires OnTarget(Some(l.i), l.auth)
    ensures Inv(CreatePolicyStep(w, l, created, x))
  {
    ClosingOk(w, l);
    var target := TxOf(l.auth).value.targetDigest;
    PolicyReadOk(w, l);
    CreateVerdict(Log(w, PolicyRead(w.policy, target)), l, created, Intact(w.policy, target), x);
  }

  /** A turn's outcome once the policy is read. */
  lemma CreateVerdict(w: World, l: Local, created: bool, intact: bool, x: Answers)
    requires WorldOk(w) && Here(w, l) && ApiKeyCreate(l.auth) && (intact ==> ReadIntact(w, l.auth))
    requires AtStage(l.auth, Converging) || AtStage(l.auth, ProbingAfter)
    requires OnTarget(Some(l.i), l.auth)
    ensures Inv(AfterPolicyRead(w, l, created, intact, x))
  {
    hide Inv, Savable, Read, LogOk, PcOk, Shape, Around;
    Facts(w, l);
    ClosingOk(w, l);
    SavingOk(w, l, ToWait);
    var tx := TxOf(l.auth).value;
    if created || !intact {
      MovesCreate(w, l, ApplyingPolicies);
    } else if x.nack {
      MovesCreate(w, l, Converging);
    } else if tx.stage == Converging {
      MovesCreate(w, l, ProbingAfter);
    } else if x.code == 401 && x.cleanBefore && x.cleanAfter && !l.i.foreign {
      var a := Answer(x.nack, l.i.foreign, x.cleanBefore, x.code, x.cleanAfter);
      CreditedOk(w, l, tx, a);
      SavingOk(Log(w, Credited(w.auth, a)), ToStage(l, tx, Publishing), ToCreate);
    }
  }

  lemma MovesCreate(w: World, l: Local, stage: Stage)
    requires WorldOk(w) && Here(w, l) && ApiKeyCreate(l.auth) && TxOf(l.auth).value.written
    requires stage == ApplyingPolicies || stage == Converging || stage == ProbingAfter
    requires OnTarget(Some(l.i), l.auth)
    ensures Inv(At(w, Saving(ToStage(l, TxOf(l.auth).value, stage), ToCreate)))
    ensures Inv(At(w, Saving(ToStage(l, TxOf(l.auth).value, stage), ToWait)))
  {
    var tx := TxOf(l.auth).value;
    CreateStageOk(w, l, tx.(stage := stage));
    SavingOk(w, ToStage(l, tx, stage), ToCreate);
    SavingOk(w, ToStage(l, tx, stage), ToWait);
  }

  lemma CreditedOk(w: World, l: Local, tx: Tx, a: Answer)
    requires WorldOk(w) && Here(w, l) && ApiKeyCreate(l.auth) && tx == TxOf(l.auth).value && tx.written
    requires !AtPublishing(l.auth) && CleanAnswer(a) && ReadIntact(w, l.auth)
    ensures WorldOk(Log(w, Credited(w.auth, a)))
    ensures Base(Log(w, Credited(w.auth, a)), Stored(l, WithTx(l.auth.value, tx.(stage := Publishing))))
  {
    hide Read, LogOk;
    LogGrows(w.log, Credited(w.auth, a));
    CreateStageOk(Log(w, Credited(w.auth, a)), l, tx.(stage := Publishing));
  }

  lemma PublishInv(w: World, l: Local, x: Answers)
    requires WorldOk(w) && Here(w, l) && HasTx(l.auth, Create) && AtStage(l.auth, Publishing)
    requires ApiKeyCreate(l.auth) ==> ReadIntact(w, l.auth)
    requires OnTarget(Some(l.i), l.auth)
    ensures Inv(PublishStep(w, l, x))
  {
    hide Inv, Savable, Read, LogOk, PcOk, Shape, Around;
    Facts(w, l);
    ClosingOk(w, l);
    if l.i.active != 0 && !l.i.foreign {
      RoutedOk(w, l, x.op);
      var (t, r) := Routed(w, PublicationFor(l.auth), l.i.active, x.op);
      PublishedOk(t, l);
      if TxOf(l.auth).value.targetMode == ApiKey {
        PreparesAgain(w, l);
        PreparesAgain(t, l);
      }
    }
  }

  lemma PublishedOk(w: World, l: Local)
    requires WorldOk(w) && Here(w, l) && HasTx(l.auth, Create) && AtStage(l.auth, Publishing)
    requires l.i.active != 0 && !l.i.foreign
    ensures Inv(At(w, Wait(l))) && Inv(At(w, Error(l)))
    ensures Inv(At(w, Saving(Stored(l, ServedRecord(TxOf(l.auth).value)).(served := true), ToWait)))
  {
    ClosingOk(w, l);
    CreateServedOk(w, l);
    SavingOk(w, Stored(l, ServedRecord(TxOf(l.auth).value)).(served := true), ToWait);
  }

  lemma PreparesAgain(w: World, l: Local)
    requires WorldOk(w) && Here(w, l) && ApiKeyCreate(l.auth)
    requires OnTarget(Some(l.i), l.auth)
    ensures Inv(At(w, Saving(ToStage(l, TxOf(l.auth).value, PreparingRoute), ToCreate)))
  {
    CreateStageOk(w, l, TxOf(l.auth).value.(stage := PreparingRoute));
    SavingOk(w, ToStage(l, TxOf(l.auth).value, PreparingRoute), ToCreate);
  }

  lemma LockEnterInv(w: World, l: Local, x: Answers)
    requires WorldOk(w) && PcOk(w, LockEnter(l))
    ensures Inv(LockEnterStep(w, l, x))
  {
    hide Inv, Savable, Read, LogOk;
    Facts(w, l);
    ClosingOk(w, l);
    if IsReCreation(l.auth) {
      RecreateOk(w, l);
      Lands(w, Recreate(l));
      if x.seen.Some? && Renders(TxOf(l.auth).value, l.i) { GoesOn(w, LockTurn(l, x.seen.value)); }
    } else if l.i.active != 0 && Renders(TxOf(l.auth).value, l.i) {
      LockEnsureInv(w, l, x);
    }
  }

  lemma LockEnsureInv(w: World, l: Local, x: Answers)
    requires WorldOk(w) && Here(w, l) && HasTx(l.auth, Lock) && !IsReCreation(l.auth) && l.i.active != 0
    requires Renders(TxOf(l.auth).value, l.i)
    ensures Inv(LockEnterStep(w, l, x))
  {
    Facts(w, l);
    RoutedOk(w, l, x.op);
    var (t, r) := Routed(w, PublicationFor(l.auth), l.i.active, x.op);
    ClosingOk(t, l);
    if r.Got? {
      EnteredOk(t, l, r.rt);
    }
  }

  lemma EnteredOk(w: World, l: Local, rt: Route)
    requires WorldOk(w) && Here(w, l) && HasTx(l.auth, Lock) && l.i.active != 0 && rt.backends == [l.i.active]
    requires TxOf(l.auth).value.targetDigest == l.i.rendered
    ensures var tx := TxOf(l.auth).value;
            if tx.beforeRevision != 0 && SingleBackend(rt) != Some(tx.beforeRevision)
            then Inv(At(w, Saving(Stored(l, WithTx(l.auth.value, tx.(beforeObserved := false, beforeRevision := 0))),
                                  ToLockWith(rt))))
            else Inv(At(w, LockTurn(l, rt)))
  {
    Facts(w, l);
    var tx := TxOf(l.auth).value;
    if tx.beforeRevision != 0 && SingleBackend(rt) != Some(tx.beforeRevision) {
      var tx1 := tx.(beforeObserved := false, beforeRevision := 0);
      LockStageOk(w, l, tx1);
      SavingOk(w, Stored(l, WithTx(l.auth.value, tx1)), ToLockWith(rt));
    } else {
      GoesOn(w, LockTurn(l, rt));
    }
  }

  /** The answer before the policy: a 200 with the named revision's own card is
      what the record may rest on from then. */
  lemma BeforeOk(w: World, l: Local, rt: Route, code: nat, body: Digest)
    requires WorldOk(w) && Here(w, l) && RtOk(l, rt) && AtStage(l.auth, ProbingBefore)
    ensures var t := Log(w, BeforeAnswered(w.auth, rt, l.i.cards, code, body));
            && WorldOk(t) && Here(t, l)
            && Read(t.log).before == Observed(l.auth, rt, l.i.cards, code, body)
  {
    hide Read, LogOk;
    LogGrows(w.log, BeforeAnswered(w.auth, rt, l.i.cards, code, body));
  }

  lemma LockProbeBeforeInv(w: World, l: Local, rt: Route, x: Answers)
    requires WorldOk(w) && Here(w, l) && RtOk(l, rt) && AtStage(l.auth, ProbingBefore)
    ensures Inv(LockStep(w, l, rt, x))
  {
    hide Inv, Savable, Read, LogOk, PcOk, Shape, Around;
    Facts(w, l);
    var tx := TxOf(l.auth).value;
    var t := if x.ok then Log(w, BeforeAnswered(w.auth, rt, l.i.cards, x.code, x.body)) else w;
    if x.ok {
      BeforeOk(w, l, rt, x.code, x.body);
    }
    var rev := if x.ok then BeforeRevisionFor(l.i.cards, rt, x.code, x.body) else 0;
    var tx1 := if rev != 0 then tx.(beforeObserved := true, beforeRevision := rev) else tx;
    LockStageOk(t, l, tx1.(written := true, stage := ApplyingPolicies));
    SavingOk(t, ToStage(l, tx1.(written := true), ApplyingPolicies), ToLockWith(rt));
  }

  lemma LockApplyInv(w: World, l: Local, rt: Route, x: Answers)
    requires WorldOk(w) && Here(w, l) && RtOk(l, rt) && AtStage(l.auth, ApplyingPolicies)
    ensures Inv(LockStep(w, l, rt, x))
  {
    hide Inv, Savable, Read, LogOk, PcOk, Shape, Around;
    Facts(w, l);
    ClosingOk(w, l);
    var tx := TxOf(l.auth).value;
    if !l.i.foreignOwn {
      PolicyWrittenOk(w, l, tx.targetDigest);
      MovesLock(WritePolicy(w, tx.targetDigest), l, rt, Converging);
    }
  }

  lemma MovesLock(w: World, l: Local, rt: Route, stage: Stage)
    requires WorldOk(w) && Here(w, l) && RtOk(l, rt) && TxOf(l.auth).value.written
    requires stage == ApplyingPolicies || stage == Converging || stage == ProbingAfter
    ensures Inv(At(w, Saving(ToStage(l, TxOf(l.auth).value, stage), ToLockWith(rt))))
    ensures Inv(At(w, Saving(ToStage(l, TxOf(l.auth).value, stage), ToWait)))
  {
    Facts(w, l);
    var tx := TxOf(l.auth).value;
    LockStageOk(w, l, tx.(stage := stage));
    SavingOk(w, ToStage(l, tx, stage), ToLockWith(rt));
    SavingOk(w, ToStage(l, tx, stage), ToWait);
  }

  lemma LockPolicyInv(w: World, l: Local, rt: Route, x: Answers)
    requires WorldOk(w) && Here(w, l) && RtOk(l, rt)
    requires AtStage(l.auth, Converging) || AtStage(l.auth, ProbingAfter)
    ensures Inv(LockPolicyStep(w, l, TxOf(l.auth).value, rt, x))
  {
    ClosingOk(w, l);
    var target := TxOf(l.auth).value.targetDigest;
    PolicyReadOk(w, l);
    LockVerdict(Log(w, PolicyRead(w.policy, target)), l, rt, Intact(w.policy, target), x);
  }

  lemma LockVerdict(w: World, l: Local, rt: Route, intact: bool, x: Answers)
    requires WorldOk(w) && Here(w, l) && RtOk(l, rt) && (intact ==> ReadIntact(w, l.auth))
    requires AtStage(l.auth, Converging) || AtStage(l.auth, ProbingAfter)
    ensures Inv(AfterLockRead(w, l, TxOf(l.auth).value, rt, intact, x))
  {
    hide Inv, Savable, Read, LogOk, PcOk, Shape, Around;
    Facts(w, l);
    ClosingOk(w, l);
    if !intact {
      MovesLock(w, l, rt, ApplyingPolicies);
    } else if x.nack {
      MovesLock(w, l, rt, Converging);
    } else if TxOf(l.auth).value.stage == Converging {
      MovesLock(w, l, rt, ProbingAfter);
    } else if l.i.foreign {
      LoggedOk(w, l, LockWaits(l.auth, rt, l.i.active));
      ClosingOk(Log(w, LockWaits(l.auth, rt, l.i.active)), l);
    } else {
      LockGoesOn(w, l, rt, x.cleanBefore);
    }
  }

  lemma LockGoesOn(w: World, l: Local, rt: Route, clean: bool)
    requires WorldOk(w) && Here(w, l) && RtOk(l, rt) && ReadIntact(w, l.auth)
    requires AtStage(l.auth, ProbingAfter) && !l.i.foreign
    ensures IsReCreation(l.auth) && l.i.active != 0 ==> Inv(At(w, LockRepoint(l, rt, false, clean)))
    ensures Inv(At(w, LockProbe(l, rt, false, clean)))
  {
    hide Savable, Read, LogOk;
  }

  lemma LockRepointInv(w: World, l: Local, rt: Route, clean: bool, x: Answers)
    requires WorldOk(w) && Here(w, l) && RtOk(l, rt) && ReadIntact(w, l.auth) && AtStage(l.auth, ProbingAfter)
    requires !l.i.foreign && IsReCreation(l.auth) && l.i.active != 0
    ensures Inv(LockRepointStep(w, l, false, clean, x))
  {
    Facts(w, l);
    RoutedOk(w, l, x.op);
    var (t, r) := Routed(w, PublicationFor(l.auth), l.i.active, x.op);
    ClosingOk(t, l);
    RecreateOk(t, l);
    Lands(t, Recreate(l));
    if r.Got? {
      LockGoesOn(t, l, r.rt, clean);
    }
  }

  /** The answer is credited only where it can be attributed. */
  lemma LockCreditOk(w: World, l: Local, rt: Route, a: Answer, tie: Attribution)
    requires WorldOk(w) && Here(w, l) && RtOk(l, rt) && ReadIntact(w, l.auth) && CleanAnswer(a)
    requires tie.converged && tie.backend == SingleBackend(rt) && tie.carded == CardAttributes(l.i.cards, rt)
    requires tie.before == if TxOf(l.auth).value.beforeObserved then Some(TxOf(l.auth).value.beforeRevision) else None
    requires TxOf(l.auth).value.beforeObserved || tie.carded
    ensures WorldOk(Log(w, LockCredited(w.auth, a, tie)))
    ensures Here(Log(w, LockCredited(w.auth, a, tie)), l) && ReadIntact(Log(w, LockCredited(w.auth, a, tie)), l.auth)
    ensures Read(Log(w, LockCredited(w.auth, a, tie)).log).lockCredit == l.auth
  {
    hide Read, LogOk;
    assert Attributed(a, tie);
    LogGrows(w.log, LockCredited(w.auth, a, tie));
  }

  lemma LockProbeInv(w: World, l: Local, rt: Route, nacked: bool, clean: bool, x: Answers)
    requires WorldOk(w) && Here(w, l) && RtOk(l, rt) && ReadIntact(w, l.auth) && !nacked && !l.i.foreign
    requires AtStage(l.auth, ProbingAfter)
    ensures Inv(LockProbeStep(w, l, rt, nacked, clean, x))
  {
    hide Inv, Savable, Read, LogOk, PcOk, Shape, Around;
    Facts(w, l);
    var tx := TxOf(l.auth).value;
    var carded := CardAttributes(l.i.cards, rt);
    if x.converged && x.code == 401 && (tx.beforeObserved || carded) && clean && x.cleanAfter {
      var a := Answer(nacked, l.i.foreign, clean, x.code, x.cleanAfter);
      var tie := Attribution(x.converged, if tx.beforeObserved then Some(tx.beforeRevision) else None,
                             SingleBackend(rt), carded);
      LockCreditOk(w, l, rt, a, tie);
      LockEndsOk(Log(w, LockCredited(w.auth, a, tie)), l);
    } else {
      var e := LockWaits(l.auth, rt, l.i.active);
      LoggedOk(w, l, e);
      ClosingOk(Log(w, e), l);
      SavingOk(Log(w, e), l, ToWait);
    }
  }

  lemma LockEndsOk(w: World, l: Local)
    requires WorldOk(w) && Here(w, l) && HasTx(l.auth, Lock)
    requires Read(w.log).lockCredit == l.auth && ReadIntact(w, l.auth)
    ensures var l1 := Stored(l, ServedRecord(TxOf(l.auth).value)).(served := true);
            Inv(At(w, Saving(l1, ToWait))) && (l.i.active != 0 ==> Inv(At(w, Saving(l1, ToMarker))))
  {
    var l1 := Stored(l, ServedRecord(TxOf(l.auth).value)).(served := true);
    LockServedOk(w, l);
    SavingOk(w, l1, ToWait);
    if l.i.active != 0 {
      SavingOk(w, l1, ToMarker);
    }
  }

  lemma LockStepInv(w: World, l: Local, rt: Route, x: Answers)
    requires WorldOk(w) && Here(w, l) && RtOk(l, rt)
    ensures Inv(LockStep(w, l, rt, x))
  {
    Facts(w, l);
    if AtStage(l.auth, ProbingBefore) {
      LockProbeBeforeInv(w, l, rt, x);
    } else if AtStage(l.auth, ApplyingPolicies) {
      LockApplyInv(w, l, rt, x);
    } else {
      LockPolicyInv(w, l, rt, x);
    }
  }

  lemma LockMarkerInv(w: World, l: Local, x: Answers)
    requires WorldOk(w) && PcOk(w, LockMarker(l))
    ensures Inv(Advance(AuthSys(w, LockMarker(l)), x))
  {
    hide Inv, Savable, Read, LogOk;
    RoutedStays(w, l.i.active, x.op);
    var (t, r) := Routed(w, PublicationFor(l.auth), l.i.active, x.op);
    StaysOk(w, t);
    BaseStays(w, t, l);
    ClosingOk(t, l);
  }

  lemma ServedRouteInv(w: World, l: Local, x: Answers)
    requires WorldOk(w) && Here(w, l) && Settled(l.auth, ApiKey) && l.i.active != 0
    ensures Inv(Advance(AuthSys(w, ServedRoute(l)), x))
  {
    hide Inv, Savable, Read, LogOk;
    ClosingOk(w, l);
    RecreateOk(w, l);
    Lands(w, Recreate(l));
    GoesOn(w, ServedPolicy(l));
  }

  lemma ServedPolicyInv(w: World, l: Local, x: Answers)
    requires WorldOk(w) && Here(w, l) && Settled(l.auth, ApiKey) && l.i.active != 0
    ensures Inv(ServedPolicyStep(w, l, x))
  {
    hide Inv, Savable, Read, LogOk;
    ClosingOk(w, l);
    var t := Log(w, PolicySeen(w.policy));
    LoggedOk(w, l, PolicySeen(w.policy));
    if w.policy.Some? {
      GoesOn(t, ServedReassert(l));
    } else {
      LockMissingOk(t, l);
      Lands(t, LockMissing(l));
    }
  }

  lemma ReassertInv(w: World, l: Local, x: Answers)
    requires WorldOk(w) && Here(w, l) && Settled(l.auth, ApiKey) && Read(w.log).seen && l.i.active != 0
    ensures Inv(ReassertStep(w, l, x))
  {
    hide Inv, Savable, Read, LogOk;
    ClosingOk(w, l);
    var applied := l.auth.value.appliedDigest;
    var t := if Own(w.policy) && l.i.rendered == applied then WritePolicy(w, applied) else w;
    if l.i.rendered == applied {
      PolicyWrittenOk(w, l, applied);
    }
    var e := Reasserted(w.policy, t.policy, l.i.rendered, applied);
    LoggedOk(t, l, e);
    GoesOn(Log(t, e), ServedEnsure(l));
  }

  lemma ServedEnsureInv(w: World, l: Local, x: Answers)
    requires WorldOk(w) && Here(w, l) && l.auth.Some? && l.auth.value.tx.None? && l.i.active != 0
    requires Settled(l.auth, ApiKey) ==> ServedRead(Read(w.log), l.auth)
    ensures Inv(ServedEnsureStep(w, l, x))
  {
    Facts(w, l);
    RoutedOk(w, l, x.op);
    var (t, r) := Routed(w, PublicationFor(l.auth), l.i.active, x.op);
    ClosingOk(t, l);
    if r.Gone? {
      assert PublicationFor(l.auth) == Publish(ApiKey);
      RecreateOk(t, l);
      Lands(t, Recreate(l));
    }
  }

  /** A stored record is right with its entry in the history. */
  lemma SaveOk(w: World, l: Local, how: SaveKind)
    requires WorldOk(w) && Savable(w, l.auth) && !how.AfterServed?
    requires !l.served ==> ClaimsOf(l.auth) == ClaimsAfter(ClaimsOf(w.auth), how)
    ensures WorldOk(Save(w, l, how)) && Savable(Save(w, l, how), l.auth)
    ensures var r, t := Read(w.log), Read(Save(w, l, how).log);
            t == r.(credit := t.credit, before := t.before, claims := t.claims)
  {
    hide Read, LogOk;
    LogGrows(w.log, Saved(w.auth, l.auth, if l.served then AfterServed else how));
  }

  lemma SaveInv(w: World, l: Local, next: Next, commit: Commit)
    requires WorldOk(w) && Base(w, l) && NextOk(l, next)
    requires next.ToMarker? ==> ServedRead(Read(w.log), l.auth)
    ensures Inv(SaveStep(w, l, next, commit))
  {
    hide Savable, Read, LogOk;
    ClosingOk(w, l);
    SaveOk(w, l, Plain);
    ContinueOk(Save(w, l, Plain), l, next);
  }

  lemma ContinueOk(w: World, l: Local, next: Next)
    requires WorldOk(w) && Base(w, l) && l.auth == w.auth && NextOk(l, next)
    requires next.ToMarker? ==> ServedRead(Read(w.log), l.auth)
    ensures PcOk(w, Continue(l, next))
  {
    hide Savable, Read, LogOk;
    if next.ToDispatch? {
      DispatchOk(w, l);
    }
  }

  /** The closing write: each claim moves exactly as what was heard says. */
  lemma CloseInv(w: World, l: Local, err: bool, x: Answers)
    requires WorldOk(w) && Base(w, l)
    ensures Inv(CloseStep(w, l, err, x))
  {
    hide Read, LogOk;
    if x.commit != CommitFails {
      var l1 := l.(auth := ClosingAuth(l, err, x));
      ClosingSavable(w, l, err, x);
      SaveOk(w, l1, Heard(l, err, x));
    }
  }

  lemma ClosingSavable(w: World, l: Local, err: bool, x: Answers)
    requires Base(w, l)
    ensures Savable(w, ClosingAuth(l, err, x))
  {
    hide Read, LogOk;
    if l.auth.Some? {
      assert ClosingAuth(l, err, x).value == l.auth.value.(claims := ClosingAuth(l, err, x).value.claims);
    }
  }

  lemma EntryReadInv(w: World, l: Local, x: Answers)
    requires WorldOk(w) && PcOk(w, EntryRead(l))
    ensures Inv(Advance(AuthSys(w, EntryRead(l)), x))
  {
    hide Inv, Savable, Read, LogOk;
    Facts(w, l);
    ClosingOk(w, l);
    DispatchOk(w, l);
    Lands(w, Dispatch(l));
    if RouteUp(w.route) {
      GoesOn(w, AdoptEnsure(l));
    }
  }

  predicate InTransaction(pc: Pc) {
    || pc.CreateTurn? || pc.CreatePolicy? || pc.PublishRoute?
    || pc.LockEnter? || pc.LockTurn? || pc.LockRepoint? || pc.LockProbe? || pc.LockMarker?
  }

  lemma TransactionInv(w: World, pc: Pc, x: Answers)
    requires WorldOk(w) && PcOk(w, pc) && InTransaction(pc)
    ensures Inv(Advance(AuthSys(w, pc), x))
  {
    hide Inv, Savable, Read, LogOk, WorldOk, AdoptStep,
      AbandonRouteStep, AbandonPolicyStep, CreateStep, CreatePolicyStep, PublishStep, LockEnterStep, LockStep,
      LockRepointStep, LockProbeStep, ServedPolicyStep, ReassertStep, ServedEnsureStep, SaveStep, CloseStep;
    match pc
    case CreateTurn(l) => CreateStepInv(w, l, x);
    case CreatePolicy(l, created) => CreatePolicyInv(w, l, created, x);
    case PublishRoute(l) => PublishInv(w, l, x);
    case LockEnter(l) => LockEnterInv(w, l, x);
    case LockTurn(l, rt) => LockStepInv(w, l, rt, x);
    case LockRepoint(l, rt, nacked, clean) => LockRepointInv(w, l, rt, clean, x);
    case LockProbe(l, rt, nacked, clean) => LockProbeInv(w, l, rt, nacked, clean, x);
    case LockMarker(l) => LockMarkerInv(w, l, x);
  }

  predicate InAbandonment(pc: Pc) {
    pc.AbandonRoute? || pc.AbandonDelete? || pc.AbandonConfirm? || pc.AbandonPolicy? || pc.AbandonPolicyConfirm?
  }

  lemma AbandonmentInv(w: World, pc: Pc, x: Answers)
    requires WorldOk(w) && PcOk(w, pc) && InAbandonment(pc)
    ensures Inv(Advance(AuthSys(w, pc), x))
  {
    hide Inv, Savable, Read, LogOk, WorldOk, AdoptStep,
      AbandonRouteStep, AbandonPolicyStep, CreateStep, CreatePolicyStep, PublishStep, LockEnterStep, LockStep,
      LockRepointStep, LockProbeStep, ServedPolicyStep, ReassertStep, ServedEnsureStep, SaveStep, CloseStep;
    match pc
    case AbandonRoute(l) => AbandonRouteInv(w, l, x);
    case AbandonDelete(l) => AbandonDeleteInv(w, l, x);
    case AbandonConfirm(l) => ClosingOk(w, l); GoesOn(w, AbandonPolicy(l));
    case AbandonPolicy(l) => AbandonPolicyInv(w, l, x);
    case AbandonPolicyConfirm(l) => AbandonPolicyConfirmInv(w, l, x);
  }

  predicate InServed(pc: Pc) {
    pc.ServedRoute? || pc.ServedPolicy? || pc.ServedReassert? || pc.ServedEnsure?
  }

  lemma ServedInv(w: World, pc: Pc, x: Answers)
    requires WorldOk(w) && PcOk(w, pc) && InServed(pc)
    ensures Inv(Advance(AuthSys(w, pc), x))
  {
    hide Inv, Savable, Read, LogOk, WorldOk, ServedPolicyStep, ReassertStep, ServedEnsureStep;
    match pc
    case ServedRoute(l) => ServedRouteInv(w, l, x);
    case ServedPolicy(l) => ServedPolicyInv(w, l, x);
    case ServedReassert(l) => ReassertInv(w, l, x);
    case ServedEnsure(l) => ServedEnsureInv(w, l, x);
  }

  lemma EndingInv(w: World, pc: Pc, x: Answers)
    requires WorldOk(w) && PcOk(w, pc) && (pc.CollectAll? || pc.Saving? || pc.Closing?)
    ensures Inv(Advance(AuthSys(w, pc), x))
  {
    hide Inv, Savable, Read, LogOk, WorldOk, SaveStep, CloseStep;
    match pc
    case CollectAll(l) => CollectAllInv(w, l, x);
    case Saving(l, next) => SaveInv(w, l, next, x.commit);
    case Closing(l, err) => CloseInv(w, l, err, x);
  }

  /** One operation keeps the invariant. */
  lemma AdvanceInv(w: World, pc: Pc, x: Answers)
    requires WorldOk(w) && PcOk(w, pc)
    ensures Inv(Advance(AuthSys(w, pc), x))
  {
    hide Inv, PcOk, Savable, Read, LogOk, WorldOk, AdoptStep,
      AbandonRouteStep, AbandonPolicyStep, CreateStep, CreatePolicyStep, PublishStep, LockEnterStep, LockStep,
      LockRepointStep, LockProbeStep, ServedPolicyStep, ReassertStep, ServedEnsureStep, SaveStep, CloseStep;
    match pc
    case Idle => Lands(w, pc);
    case EntryRead(l) => EntryReadInv(w, l, x);
    case AdoptEnsure(l) => AdoptStepInv(w, l, x);
    case CollectAll(l) => EndingInv(w, pc, x);
    case Saving(l, next) => EndingInv(w, pc, x);
    case Closing(l, err) => EndingInv(w, pc, x);
    case _ =>
      if InAbandonment(pc) { AbandonmentInv(w, pc, x); }
      else if InServed(pc) { ServedInv(w, pc, x); }
      else { TransactionInv(w, pc, x); }
  }

  /** What the environment does leaves every record right where it stands. */
  lemma EnvironmentInv(s: AuthSys, t: AuthSys)
    requires Inv(s) && t == AuthSys(s.w.(route := t.w.route, policy := t.w.policy), s.pc)
    requires Own(t.w.policy) ==> Own(s.w.policy)
    requires RouteUp(t.w.route) ==> RouteUp(s.w.route)
    ensures Inv(t)
  {
    hide Read, LogOk;
  }

  lemma BeginInv(w: World, i: AuthIn)
    requires WorldOk(w)
    ensures Inv(At(Log(w, Began(i)), Head(w.auth, i)))
  {
    LogGrows(w.log, Began(i));
    HeadOk(Log(w, Began(i)), i);
  }

  /** Every step keeps the invariant. */
  lemma StepInv(s: AuthSys, a: Action)
    requires Inv(s)
    ensures Inv(Step(s, a))
  {
    hide PcOk, WorldOk;
    match a
    case Begin(i) => if s.pc.Idle? { BeginInv(s.w, i); }
    case Do(x) => AdvanceInv(s.w, s.pc, x);
    case Crash => CrashInv(s);
    case MoveRoute(route) => if RouteMay(s.w.route, route) { EnvironmentInv(s, Step(s, a)); }
    case MovePolicy(policy) => if PolicyMay(s.w.policy, policy) { EnvironmentInv(s, Step(s, a)); }
  }

  lemma CrashInv(s: AuthSys)
    requires Inv(s)
    ensures Inv(At(s.w, Idle))
  {
  }

  // ------------------------------------------------------- over every run

  lemma {:induction false} RunInv(s: AuthSys, actions: seq<Action>)
    requires Inv(s)
    ensures Inv(Run(s, actions))
  {
    hide Inv, Step;
    if actions != [] {
      RunInv(s, actions[..|actions| - 1]);
      StepInv(Run(s, actions[..|actions| - 1]), actions[|actions| - 1]);
    }
  }

  /** A state some run reaches: nothing recorded at first, and no policy of
      this Agent's; a route may have been there, published or not. */
  ghost predicate Reachable(s: AuthSys) {
    exists route: Option<Route>, policy: Option<Policy>, actions: seq<Action> ::
      !Own(policy) && s == Run(Init(route, policy), actions)
  }

  lemma ReachableInv(s: AuthSys)
    requires Reachable(s)
    ensures Inv(s)
  {
    var route: Option<Route>, policy: Option<Policy>, actions: seq<Action> :|
      !Own(policy) && s == Run(Init(route, policy), actions);
    InitInv(route, policy);
    RunInv(Init(route, policy), actions);
  }
}
