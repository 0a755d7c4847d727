/**
 Which way a pass goes, both ways: what it enters, carries on, gives up,
 re-creates, waits for and stores, each exactly when, from the record it found,
 what it read when it began and what the operation was answered.
 */
module AuthCourse {
  import opened Types
  import opened SendPredicates
  import opened AuthMachine
  import opened AuthSafety

  // ------------------------------------------------------ what is wanted

  predicate In(auth: Option<AuthStatus>, kind: Kind) {
    auth.Some? && auth.value.tx.Some? && auth.value.tx.value.kind == kind
  }

  predicate Serves(auth: Option<AuthStatus>, mode: Mode) {
    auth.Some? && auth.value.tx.None? && auth.value.mode == mode
  }

  /** A mode this operator compiles is wanted, and a revision serves. */
  predicate Wanted(i: AuthIn) {
    i.inputOk && i.desired in {NoAuth, ApiKey} && i.active != 0
  }

  /** J2: served under none, and wanted under apikey. */
  predicate WantsJ2(auth: Option<AuthStatus>, i: AuthIn) {
    Serves(auth, NoAuth) && Wanted(i) && i.desired == ApiKey
  }

  /** K2: an adopted route that was wanted under another mode first, and now under apikey. */
  predicate WantsK2(auth: Option<AuthStatus>, i: AuthIn) {
    In(auth, Adopt) && auth.value.tx.value.refusedMode !in {Unset, ApiKey} && Wanted(i) && i.desired == ApiKey
  }

  /** A Create or a Lock of what is not served yet, and no longer wanted. */
  predicate GivenUp(auth: Option<AuthStatus>, i: AuthIn) {
    (In(auth, Create) || In(auth, Lock)) && auth.value.mode != ApiKey && auth.value.tx.value.targetMode != i.desired
  }

  /** The policy this operator renders is the one the transaction recorded. */
  predicate RendersIt(auth: Option<AuthStatus>, i: AuthIn) {
    auth.Some? && auth.value.tx.Some? &&
    (auth.value.tx.value.targetMode == ApiKey ==> auth.value.tx.value.targetDigest == i.rendered)
  }

  // -------------------------------------------------- the records entered

  function LockTo(digest: Digest, stage: Stage, written: bool, i: AuthIn): Tx {
    Tx(Lock, ApiKey, digest, stage, written, false, 0, Unset, Some(i.deadline))
  }

  function CreateTo(mode: Mode, digest: Digest, stage: Stage, i: AuthIn): Tx {
    Tx(Create, mode, digest, stage, false, false, 0, Unset, Some(i.deadline))
  }

  /** none is published at once; apikey is prepared first. */
  function WantedCreate(i: AuthIn): AuthStatus {
    AuthStatus(Unset, 0,
      Some(if i.desired == ApiKey then CreateTo(ApiKey, i.rendered, PreparingRoute, i)
           else CreateTo(NoAuth, 0, Publishing, i)), NoClaims)
  }

  /** The working record, about to be stored, and nothing else of the pass moved. */
  predicate Stores(pc: Pc, l: Local, now: Option<AuthStatus>, next: Next) {
    pc == Saving(l.(auth := now), next)
  }

  predicate Waits(pc: Pc, l: Local) {
    pc == Closing(l, false)
  }

  predicate Errs(pc: Pc, l: Local) {
    pc == Closing(l, true)
  }

  /** The operation at each pc of a transaction and of the closing write. */
  lemma Operation(s: AuthSys, x: Answers)
    requires s.pc.CreateTurn? || s.pc.LockTurn? || s.pc.Closing?
    ensures s.pc.CreateTurn? ==> Advance(s, x) == CreateStep(s.w, s.pc.l, x)
    ensures s.pc.LockTurn? ==> Advance(s, x) == LockStep(s.w, s.pc.l, s.pc.rt, x)
    ensures s.pc.Closing? ==> Advance(s, x) == CloseStep(s.w, s.pc.l, s.pc.err, x)
  {
    hide CreateStep, LockStep, CloseStep;
  }

  /** ensureServingRoute, by its answers. */
  lemma RoutedIs(w: World, pub: Publication, active: Rev, op: RouteOp)
    ensures var (t, r) := Routed(w, pub, active, op);
            var keyed := pub == Publish(ApiKey);
            && t == w.(route := t.route, log := t.log)
            && (r.Got? <==> op == Skip || (op == Put && (!keyed || w.route.Some?)))
            && (r.Gone? <==> keyed && (op == Missing || (op == Put && w.route.None?)))
            && (r.Got? ==> r == Got(RouteFor(pub, active), op == Put && w.route.None?))
            && t.route == (if op == Put && r.Got? then Some(RouteFor(pub, active)) else w.route)
  {
  }

  // --------------------------------------------------- the start of a pass

  /** What a pass starts on, exactly: every stored record and every input has
      one way on. */
  lemma PassBegins(s: AuthSys, i: AuthIn)
    requires Inv(s) && s.pc.Idle?
    ensures var t, a := Step(s, Begin(i)), s.w.auth;
            && t.w == s.w.(log := s.w.log + [Began(i)])
            && !t.pc.Idle? && t.pc.l == Local(i, t.pc.l.auth, In(a, Adopt) || Serves(a, NoAuth) || Serves(a, ApiKey),
                                              if a.Some? then a.value.claims else NoClaims, false)
            && (t.pc.Saving? <==> WantsJ2(a, i) || WantsK2(a, i))
            && (!t.pc.Saving? ==> t.pc.l.auth == a)
            && (t.pc.EntryRead? <==> a.None?)
            && (t.pc.AdoptEnsure? <==> In(a, Adopt) && !WantsK2(a, i))
            && (t.pc.AbandonRoute? <==> In(a, Create) && GivenUp(a, i))
            && (t.pc.AbandonPolicy? <==> In(a, Lock) && GivenUp(a, i))
            && (t.pc.CreateTurn? <==> In(a, Create) && !GivenUp(a, i) && RendersIt(a, i))
            && (t.pc.Closing? <==> In(a, Create) && !GivenUp(a, i) && !RendersIt(a, i))
            && (t.pc.LockEnter? <==> In(a, Lock) && !GivenUp(a, i))
            && (t.pc.CollectAll? <==> (Serves(a, NoAuth) || Serves(a, ApiKey)) && i.active == 0)
            && (t.pc.ServedRoute? <==> Serves(a, ApiKey) && i.active != 0)
            && (t.pc.ServedEnsure? <==> Serves(a, NoAuth) && i.active != 0 && !WantsJ2(a, i))
  {
    hide Inv;
    Known(s);
  }

  lemma Known(s: AuthSys)
    requires Inv(s)
    ensures s.w.auth.Some? ==> AuthOk(s.w.auth.value)
    ensures !s.pc.Idle? && s.pc.l.auth.Some? ==> AuthOk(s.pc.l.auth.value)
    ensures !s.pc.Idle? ==> Shape(s.pc) && (Acting(s.pc) ==> s.pc.l.auth == s.w.auth && !s.pc.l.served)
  {
  }

  /** A Lock of a route already serving is stored in a pass's first save if and
      only if it is J2's or K2's to store, and then to the policy this operator
      renders, before anything is written; J2 keeps what is served meanwhile, K2
      keeps the claims. Nothing else is stored by then. */
  lemma LockEntered(s: AuthSys, i: AuthIn, x: Answers)
    requires Inv(s) && s.pc.Idle?
    ensures var t, a := Step(Step(s, Begin(i)), Do(x)), s.w.auth;
            && (t.w.auth != a <==> (WantsJ2(a, i) || WantsK2(a, i)) && x.commit != CommitFails)
            && (t.w.auth != a ==>
                  var tx := Some(LockTo(i.rendered, ProbingBefore, false, i));
                  var kept := if WantsJ2(a, i) then a.value else AuthStatus(Unset, 0, None, a.value.claims);
                  && t.w.auth == Some(kept.(tx := tx))
                  && (if x.commit == CommitAck then t.pc.LockEnter? && t.pc.l.auth == t.w.auth else t.pc.Idle?))
  {
    hide Inv, Advance, AuthOk, Shape, Acting;
    PassBegins(s, i);
    var s1, a := Step(s, Begin(i)), s.w.auth;
    StepInv(s, Begin(i));
    PassKeeps(s1, x);
    if s1.pc.Saving? {
      EntersOn(s, i);
      SaveGoesOn(s1, x);
    } else if s1.pc.Closing? {
      ClosesExactly(s1, x);
    }
  }

  lemma EntersOn(s: AuthSys, i: AuthIn)
    requires Inv(s) && s.pc.Idle? && (WantsJ2(s.w.auth, i) || WantsK2(s.w.auth, i))
    ensures var t, a := Step(s, Begin(i)), s.w.auth.value;
            var tx := Some(LockTo(i.rendered, ProbingBefore, false, i));
            var kept := if WantsJ2(s.w.auth, i) then a else AuthStatus(Unset, 0, None, a.claims);
            t.pc.Saving? && t.pc.next == ToLock && t.pc.l.auth == Some(kept.(tx := tx))
  {
    hide Inv, Shape, Acting;
    Known(s);
  }

  /** With nothing recorded, the live read of the route decides: one that is
      published is adopted; otherwise a Create is entered if and only if a
      compiled mode is wanted and a revision serves. */
  lemma FirstPass(s: AuthSys, i: AuthIn, x: Answers)
    requires Inv(s) && s.pc.Idle? && s.w.auth.None?
    ensures var t := Step(Step(s, Begin(i)), Do(x));
            var up := s.w.route.Some? && s.w.route.value.backends != [];
            var l := Local(i, None, false, NoClaims, false);
            && t.w == s.w.(log := s.w.log + [Began(i)])
            && (t.pc == AdoptEnsure(l) <==> x.ok && up)
            && (Stores(t.pc, l, Some(WantedCreate(i)), ToCreate) <==> x.ok && !up && Wanted(i))
            && (t.pc == CollectAll(l) <==> x.ok && !up && !Wanted(i))
            && (Errs(t.pc, l) <==> !x.ok)
  {
    PassBegins(s, i);
  }

  /** A save stores what the pass holds, whether or not the response comes back,
      and the pass goes on only when it does. */
  lemma SaveGoesOn(s: AuthSys, x: Answers)
    requires Inv(s) && s.pc.Saving?
    ensures var t, l := Advance(s, x), s.pc.l;
            && t.w.auth == (if x.commit == CommitFails then s.w.auth else l.auth)
            && (t.pc.Idle? <==> x.commit == CommitLost)
            && (x.commit == CommitFails ==> t.w == s.w && Errs(t.pc, l))
            && (x.commit == CommitAck ==>
                  && (s.pc.next == ToWait ==> Waits(t.pc, l))
                  && (s.pc.next == ToLock ==> t.pc == LockEnter(l))
                  && (s.pc.next.ToLockWith? ==> t.pc == LockTurn(l, s.pc.next.rt))
                  && (s.pc.next == ToMarker ==> t.pc == LockMarker(l))
                  && (s.pc.next == ToCreate ==> if RendersIt(l.auth, l.i) then t.pc == CreateTurn(l) else Errs(t.pc, l))
                  && (s.pc.next == ToDispatch && Serves(l.auth, NoAuth) && l.i.desired != ApiKey ==>
                        t.pc == if l.i.active == 0 then CollectAll(l) else ServedEnsure(l))
                  && (s.pc.next == ToDispatch && l.auth.None? && !Wanted(l.i) ==> t.pc == CollectAll(l)))
  {
    hide Inv;
    Known(s);
  }

  // ------------------------------------------------------- adoption

  /** What a refused Adopt records: the claims stored, and the mode refused,
      which is the one wanted now unless this is the apikey that K2 may follow. */
  function RefusedNow(a: Option<AuthStatus>, desired: Mode): AuthStatus {
    var refused := if In(a, Adopt) && desired == ApiKey && a.value.tx.value.refusedMode != Unset
                   then a.value.tx.value.refusedMode else desired;
    AuthStatus(Unset, 0, Some(Tx(Adopt, Unset, 0, Refused, false, false, 0, refused, None)),
               if a.Some? then a.value.claims else NoClaims)
  }

  /** An adopted route is kept published, unmarked, on the serving revision, and
      the refusal is recorded unless that fails. */
  lemma AdoptCourse(s: AuthSys, x: Answers)
    requires Inv(s) && s.pc.AdoptEnsure?
    ensures var t, l := Advance(s, x), s.pc.l;
            var now := Some(RefusedNow(s.w.auth, l.i.desired));
            && t.w.policy == s.w.policy && t.w.auth == s.w.auth
            && t.w.route == (if l.i.active != 0 && x.op == Put then Some(Route([l.i.active], false, true))
                             else s.w.route)
            && (Stores(t.pc, l, now, ToWait) <==> l.i.active == 0 || x.op in {Skip, Put})
            && (Errs(t.pc, l) <==> l.i.active != 0 && x.op in {Missing, RouteFails})
  {
    hide Inv;
    Known(s);
  }

  // ----------------------------------------------------- abandonment

  /** What an abandonment comes to once its policy is gone: K2 goes back to the
      adopted route, J2 to none, and a Create to nothing or the Create now wanted. */
  predicate Abandoning(pc: Pc, l: Local) {
    if In(l.auth, Lock) then
      if l.auth.value.mode == Unset then pc == AdoptEnsure(l)
      else Stores(pc, l, Some(AuthStatus(NoAuth, 0, None, l.auth.value.claims)), ToDispatch)
    else if Wanted(l.i) then Stores(pc, l, Some(WantedCreate(l.i)), ToCreate)
    else if l.i.inputOk && l.i.desired in {NoAuth, ApiKey} then pc == CollectAll(l.(auth := None))
    else Stores(pc, l, None, ToDispatch)
  }

  /** The route first: stripped of its backendRefs, and deleted and read gone
      unless a mode that compiles is wanted instead. */
  lemma AbandonsRoute(s: AuthSys, x: Answers)
    requires Inv(s) && (s.pc.AbandonRoute? || s.pc.AbandonDelete? || s.pc.AbandonConfirm?)
    ensures var t, l := Advance(s, x), s.pc.l;
            var keeps := l.i.inputOk && l.i.desired in {NoAuth, ApiKey};
            && t.w.auth == s.w.auth && t.w.policy == s.w.policy && (Errs(t.pc, l) <==> !x.ok)
            && (s.pc.AbandonRoute? && x.ok ==>
                  && t.w.route == (if s.w.route.None? then None else Some(s.w.route.value.(backends := [])))
                  && t.pc == if s.w.route.Some? && !keeps then AbandonDelete(l) else AbandonPolicy(l))
            && (s.pc.AbandonDelete? && x.ok ==>
                  t.pc == AbandonConfirm(l) && t.w.route == if x.gone then None else s.w.route)
            && (s.pc.AbandonConfirm? && x.ok ==>
                  if s.w.route.None? then t.pc == AbandonPolicy(l) else Waits(t.pc, l))
  {
  }

  /** Then this Agent's own policy, if it may have been written, deleted and
      read gone; then the record. */
  lemma AbandonsPolicy(s: AuthSys, x: Answers)
    requires Inv(s) && (s.pc.AbandonPolicy? || s.pc.AbandonPolicyConfirm?)
    ensures var t, l := Advance(s, x), s.pc.l;
            var deletes := l.auth.value.tx.value.written && x.ok && s.w.policy.Some? && s.w.policy.value.own;
            && l.auth.Some? && l.auth.value.tx.Some?
            && t.w.auth == s.w.auth && t.w.route == s.w.route
            && (s.pc.AbandonPolicy? ==>
                  && t.w.policy == (if deletes && x.gone then None else s.w.policy)
                  && (t.pc == AbandonPolicyConfirm(l) <==> deletes)
                  && (Errs(t.pc, l) <==> l.auth.value.tx.value.written && !x.ok)
                  && (!deletes && (x.ok || !l.auth.value.tx.value.written) ==> Abandoning(t.pc, l)))
            && (s.pc.AbandonPolicyConfirm? ==>
                  && t.w.policy == s.w.policy
                  && (Errs(t.pc, l) <==> !x.ok) && (Waits(t.pc, l) <==> x.ok && s.w.policy.Some?)
                  && (x.ok && s.w.policy.None? ==> Abandoning(t.pc, l)))
  {
    hide Inv;
    Known(s);
  }

  // ------------------------------------------------------ the served pass

  /** ensureServingRoute's answers: it has the route, or found none where an
      API-key route must not be created published. */
  predicate HasRoute(s: AuthSys, x: Answers, creates: bool) {
    x.op == Skip || (x.op == Put && (creates || s.w.route.Some?))
  }

  predicate LostRoute(s: AuthSys, x: Answers) {
    x.op == Missing || (x.op == Put && s.w.route.None?)
  }

  predicate SeenUp(x: Answers) {
    x.seen.Some? && x.seen.value.backends != []
  }

  /** A re-creation is entered, exactly: a served API-key route read
      unpublished, or found gone when it is written; and the same of a
      missing-policy Lock's at its entry, with a revision serving, and at its
      re-point. It is of what is served, from the first stage. */
  lemma RecreatesExactly(s: AuthSys, x: Answers)
    requires Inv(s) && !s.pc.Idle? && Acting(s.pc) && !In(s.w.auth, Create)
    requires s.w.auth.Some? && s.w.auth.value.mode == ApiKey
    ensures var t, l, a := Advance(s, x), s.pc.l, s.w.auth.value;
            && (t.pc.Saving? && In(t.pc.l.auth, Create) <==>
                  || (s.pc.ServedRoute? && x.ok && !SeenUp(x))
                  || (s.pc.ServedEnsure? && LostRoute(s, x))
                  || (s.pc.LockEnter? && a.appliedDigest == l.i.rendered && !SeenUp(x) && l.i.active != 0)
                  || (s.pc.LockRepoint? && LostRoute(s, x)))
            && (t.pc.Saving? && In(t.pc.l.auth, Create) ==>
                  var again := CreateTo(ApiKey, a.appliedDigest, PreparingRoute, l.i);
                  Stores(t.pc, l, Some(a.(tx := Some(again))), ToCreate) && t.w == s.w)
  {
    hide Inv;
    Known(s);
  }

  /** A missing-policy Lock is entered, exactly: a settled apikey whose policy
      the pass's live read found absent. It starts at writing the policy again. */
  lemma LocksMissingExactly(s: AuthSys, x: Answers)
    requires Inv(s) && !s.pc.Idle? && Acting(s.pc) && Serves(s.w.auth, ApiKey)
    ensures var t, l, a := Advance(s, x), s.pc.l, s.w.auth.value;
            && (t.pc.Saving? && In(t.pc.l.auth, Lock) <==> s.pc.ServedPolicy? && x.ok && s.w.policy.None?)
            && (t.pc.Saving? && In(t.pc.l.auth, Lock) ==>
                  Stores(t.pc, l, Some(a.(tx := Some(LockTo(a.appliedDigest, ApplyingPolicies, true, l.i)))), ToLock))
  {
    hide Inv;
    Known(s);
  }

  /** The rest of a served pass: under apikey the route is read published, a
      policy read at the name and re-asserted, this Agent's own only and only to
      what is recorded and rendered, and then the route written on the serving
      revision; under none the route alone; with no revision serving, only a
      route with this Agent's label goes. */
  lemma ServedCourse(s: AuthSys, x: Answers)
    requires Inv(s)
    requires s.pc.ServedRoute? || s.pc.ServedPolicy? || s.pc.ServedReassert? || s.pc.ServedEnsure? || s.pc.CollectAll?
    ensures var t, l := Advance(s, x), s.pc.l;
            var apikey := l.auth.Some? && l.auth.value.mode == ApiKey;
            && t.w.auth == s.w.auth
            && (!s.pc.ServedEnsure? ==> (Errs(t.pc, l) <==> !x.ok))
            && (s.pc.ServedRoute? ==> (t.pc == ServedPolicy(l) <==> x.ok && SeenUp(x)))
            && (s.pc.ServedPolicy? ==> (t.pc == ServedReassert(l) <==> x.ok && s.w.policy.Some?))
            && (s.pc.ServedReassert? && x.ok ==> t.pc == ServedEnsure(l))
            && t.w.policy == (if s.pc.ServedReassert? && x.ok && s.w.policy.Some? && s.w.policy.value.own
                                 && l.i.rendered == l.auth.value.appliedDigest
                              then Some(Policy(true, l.i.rendered)) else s.w.policy)
            && (s.pc.ServedEnsure? ==>
                  && (Waits(t.pc, l) <==> HasRoute(s, x, !apikey))
                  && (Errs(t.pc, l) <==> x.op == RouteFails || (x.op == Missing && !apikey))
                  && t.w.route == if x.op == Put && HasRoute(s, x, !apikey)
                                  then Some(Route([l.i.active], !apikey, true)) else s.w.route)
            && (s.pc.CollectAll? ==>
                  && (Waits(t.pc, l) <==> x.ok)
                  && t.w.route == if x.ok && x.gone && s.w.route.Some? && s.w.route.value.labelled
                                  then None else s.w.route)
  {
    hide Inv;
    Known(s);
  }

  // ------------------------------------------------------ runCreate's turns

  /** The transaction moves to a stage and is stored there. */
  predicate MovesTo(pc: Pc, l: Local, tx: Tx, stage: Stage, next: Next) {
    l.auth.Some? && Stores(pc, l, Some(l.auth.value.(tx := Some(tx.(stage := stage)))), next)
  }

  predicate IntactNow(s: AuthSys, digest: Digest) {
    s.w.policy == Some(Policy(true, digest))
  }

  lemma PolicyIs(w: World, digest: Digest)
    ensures WritePolicy(w, digest) == w.(policy := Some(Policy(true, digest)), log := WritePolicy(w, digest).log)
  {
  }

  /** The head of a turn: where each stage goes, and on what. The route is
      prepared with no backendRefs; the policy is written only with no foreign
      hand on it, over none or this Agent's own. */
  lemma CreateTurns(s: AuthSys, x: Answers)
    requires Inv(s) && s.pc.CreateTurn?
    ensures var t, l := Advance(s, x), s.pc.l;
            && In(l.auth, Create)
            && var tx := l.auth.value.tx.value;
               var prepares := tx.stage in {PreparingRoute, Converging, ProbingAfter};
               var writes := tx.stage == ApplyingPolicies && !l.i.foreignOwn && x.ok
                             && (s.w.policy.Some? ==> s.w.policy.value.own);
               && t.w.auth == s.w.auth
               && t.w.route == (if prepares && x.op == Put then Some(Route([], false, true)) else s.w.route)
               && t.w.policy == (if writes then Some(Policy(true, tx.targetDigest)) else s.w.policy)
               && (MovesTo(t.pc, l, tx.(written := true), ApplyingPolicies, ToCreate) <==>
                     tx.stage == PreparingRoute && x.op in {Skip, Put})
               && (MovesTo(t.pc, l, tx, Converging, ToCreate) <==> writes)
               && (t.pc == CreatePolicy(l, x.op == Put && s.w.route.None?) <==>
                     tx.stage in {Converging, ProbingAfter} && x.op in {Skip, Put})
               && (t.pc == PublishRoute(l) <==>
                     tx.stage == Publishing && (tx.targetMode == ApiKey ==> x.ok && IntactNow(s, tx.targetDigest)))
               && (MovesTo(t.pc, l, tx, PreparingRoute, ToCreate) <==>
                     tx.stage == Publishing && tx.targetMode == ApiKey && x.ok && !IntactNow(s, tx.targetDigest))
               && (Waits(t.pc, l) <==> tx.stage == ApplyingPolicies && l.i.foreignOwn)
               && (Errs(t.pc, l) <==> || (prepares && x.op in {Missing, RouteFails})
                                      || (tx.stage == ApplyingPolicies && !l.i.foreignOwn && !writes)
                                      || (tx.stage == Publishing && tx.targetMode == ApiKey && !x.ok))
  {
    hide Inv, Advance, Routed, WritePolicy;
    RoutedIs(s.w, PublicationFor(s.pc.l.auth), s.pc.l.i.active, x.op);
    Operation(s, x);
    Known(s);
    PolicyIs(s.w, TxOf(s.pc.l.auth).value.targetDigest);
  }

  /** Converging and ProbingAfter, once the policy is read: back to writing it
      if it or the route was not there; from Converging on only when converged
      with no NACK; from ProbingAfter on only on a 401 between clean reads with
      no NACK and no foreign policy, and back on a NACK. */
  lemma CreateReads(s: AuthSys, x: Answers)
    requires Inv(s) && s.pc.CreatePolicy?
    ensures var t, l := Advance(s, x), s.pc.l;
            && In(l.auth, Create)
            && var tx := l.auth.value.tx.value;
               var stands := x.ok && !s.pc.created && IntactNow(s, tx.targetDigest);
               var proves := x.code == 401 && x.cleanBefore && x.cleanAfter;
               && t.w == s.w.(log := t.w.log)
               && (Errs(t.pc, l) <==> !x.ok)
               && (MovesTo(t.pc, l, tx, ApplyingPolicies, ToCreate) <==> x.ok && !stands)
               && (MovesTo(t.pc, l, tx, ProbingAfter, ToCreate) <==>
                     stands && tx.stage == Converging && !x.nack && x.converged)
               && (MovesTo(t.pc, l, tx, Publishing, ToCreate) <==>
                     stands && tx.stage == ProbingAfter && !x.nack && !l.i.foreign && proves)
               && (MovesTo(t.pc, l, tx, Converging, ToWait) <==> stands && tx.stage == ProbingAfter && x.nack)
               && (Stores(t.pc, l, l.auth, ToWait) <==>
                     stands && tx.stage == ProbingAfter && !x.nack && !l.i.foreign && !proves)
               && (Waits(t.pc, l) <==>
                     stands && if tx.stage == Converging then x.nack || !x.converged else !x.nack && l.i.foreign)
  {
    hide Inv;
    Known(s);
  }

  /** Publishing: only with a revision serving and no foreign policy; back to
      the first stage if an API-key route is gone; and served only once the
      route it wrote has converged. */
  lemma Publishes(s: AuthSys, x: Answers)
    requires Inv(s) && s.pc.PublishRoute?
    ensures var t, l := Advance(s, x), s.pc.l;
            && In(l.auth, Create)
            && var tx := l.auth.value.tx.value;
               var apikey := tx.targetMode == ApiKey;
               var may := l.i.active != 0 && !l.i.foreign;
               var lost := apikey && (x.seen.None? || LostRoute(s, x));
               var has := may && !lost && HasRoute(s, x, true);
               var ends := AuthStatus(tx.targetMode, if apikey then tx.targetDigest else 0, None, NoClaims);
               && t.w.auth == s.w.auth && t.w.policy == s.w.policy
               && t.w.route == (if has && x.op == Put then Some(Route([l.i.active], !apikey, true)) else s.w.route)
               && (t.pc == Saving(l.(auth := Some(ends), served := true), ToWait) <==> has && x.converged)
               && (Waits(t.pc, l) <==> !may || (has && !x.converged))
               && (MovesTo(t.pc, l, tx, PreparingRoute, ToCreate) <==> may && lost)
               && (Errs(t.pc, l) <==> may && !lost && !has)
  {
    hide Inv;
    Known(s);
  }

  // -------------------------------------------------------- runLock's turns

  /** A Lock's entry: a missing-policy Lock takes the route it reads; any other
      keeps the route published on the serving revision, as it was served, and
      forgets an observation of another revision. */
  lemma LockEnters(s: AuthSys, x: Answers)
    requires Inv(s) && s.pc.LockEnter?
    ensures var t, l := Advance(s, x), s.pc.l;
            && In(l.auth, Lock)
            && var a, tx := l.auth.value, l.auth.value.tx.value;
               var renders, missing := tx.targetDigest == l.i.rendered, a.mode == ApiKey;
               var rt := Route([l.i.active], a.mode == NoAuth, true);
               var has := renders && !missing && l.i.active != 0 && x.op in {Skip, Put};
               var moved := tx.beforeRevision != 0 && tx.beforeRevision != l.i.active;
               && t.w.auth == s.w.auth && t.w.policy == s.w.policy
               && t.w.route == (if has && x.op == Put then Some(rt) else s.w.route)
               && (Errs(t.pc, l) <==> || !renders || (!missing && !has)
                                      || (missing && l.i.active == 0 && x.seen.None?))
               && (missing && renders && x.seen.Some? && (SeenUp(x) || l.i.active == 0) ==>
                     t.pc == LockTurn(l, x.seen.value))
               && (!missing ==> (t.pc == LockTurn(l, rt) <==> has && !moved))
               && var forgotten := Some(a.(tx := Some(tx.(beforeObserved := false, beforeRevision := 0))));
                  (!missing ==> (Stores(t.pc, l, forgotten, ToLockWith(rt)) <==> has && moved))
  {
    hide Inv;
    Known(s);
  }

  /** The first two stages of a Lock: the before-state is asked for once and
      recorded as observed exactly when the route's own revision answered with
      its card, and the policy is written ahead of anything that rests on it. */
  lemma LockTurns(s: AuthSys, x: Answers)
    requires Inv(s) && s.pc.LockTurn? && In(s.pc.l.auth, Lock)
    requires s.pc.l.auth.value.tx.value.stage in {ProbingBefore, ApplyingPolicies}
    ensures var t, l, rt := Advance(s, x), s.pc.l, s.pc.rt;
            var tx := l.auth.value.tx.value;
            var writes := tx.stage == ApplyingPolicies && !l.i.foreignOwn && x.ok
                          && (s.w.policy.Some? ==> s.w.policy.value.own);
            var observed := x.ok && x.code == 200 && x.body != 0 && |rt.backends| == 1 && rt.backends[0] != 0
                            && FirstCardIs(l.i.cards, rt.backends[0], x.body);
            && t.w.auth == s.w.auth && t.w.route == s.w.route
            && t.w.policy == (if writes then Some(Policy(true, tx.targetDigest)) else s.w.policy)
            && (tx.stage == ProbingBefore ==>
                  var seen := if observed then tx.(beforeObserved := true, beforeRevision := rt.backends[0]) else tx;
                  MovesTo(t.pc, l, seen.(written := true), ApplyingPolicies, ToLockWith(rt)))
            && (tx.stage == ApplyingPolicies ==>
                  && (MovesTo(t.pc, l, tx, Converging, ToLockWith(rt)) <==> writes)
                  && (Waits(t.pc, l) <==> l.i.foreignOwn)
                  && (Errs(t.pc, l) <==> !l.i.foreignOwn && !writes))
  {
    hide Inv, BeforeRevisionFor, FirstCardIs;
    Known(s);
    BeforeExactly(s.pc.l.i.cards, s.pc.rt, x.code, x.body);
  }

  /** Converging and ProbingAfter of a Lock, once the policy is read; only a
      missing-policy Lock whose serving revision has its card is re-pointed. */
  lemma LockReads(s: AuthSys, x: Answers)
    requires Inv(s) && s.pc.LockTurn? && In(s.pc.l.auth, Lock)
    requires s.pc.l.auth.value.tx.value.stage in {Converging, ProbingAfter}
    ensures var t, l, rt := Advance(s, x), s.pc.l, s.pc.rt;
            var tx := l.auth.value.tx.value;
            var stands := x.ok && IntactNow(s, tx.targetDigest);
            var asks := stands && tx.stage == ProbingAfter && !x.nack && !l.i.foreign;
            var repoints := l.auth.value.mode == ApiKey && l.i.active != 0
                            && exists c :: c in l.i.cards && c.revision == l.i.active && c.digest != 0;
            && t.w == s.w.(log := t.w.log)
            && (Errs(t.pc, l) <==> !x.ok)
            && (MovesTo(t.pc, l, tx, ApplyingPolicies, ToLockWith(rt)) <==> x.ok && !stands)
            && (MovesTo(t.pc, l, tx, ProbingAfter, ToLockWith(rt)) <==>
                  stands && tx.stage == Converging && !x.nack && x.converged)
            && (MovesTo(t.pc, l, tx, Converging, ToWait) <==> stands && tx.stage == ProbingAfter && x.nack)
            && (Waits(t.pc, l) <==>
                  stands && if tx.stage == Converging then x.nack || !x.converged else !x.nack && l.i.foreign)
            && (t.pc == LockRepoint(l, rt, false, x.cleanBefore) <==> asks && repoints)
            && (t.pc == LockProbe(l, rt, false, x.cleanBefore) <==> asks && !repoints)
  {
    hide Inv, Advance, CardedRevision;
    Operation(s, x);
    Known(s);
    CardedExactly(s.pc.l.i);
  }

  lemma CardedExactly(i: AuthIn)
    ensures CardedRevision(i.cards, i.active) <==>
            i.active != 0 && exists c :: c in i.cards && c.revision == i.active && c.digest != 0
  {
    if c :| c in i.cards && c.revision == i.active && c.digest != 0 {
      var k :| 0 <= k < |i.cards| && i.cards[k] == c;
    }
  }

  /** The route names one revision, and a card of it is recorded. */
  predicate RouteCarded(cards: seq<Card>, rt: Route) {
    |rt.backends| == 1 && exists i :: 0 <= i < |cards| && cards[i].revision == rt.backends[0] && cards[i].digest != 0
  }

  /** The writes of a Lock's route before its probe and after it: a
      missing-policy Lock's onto the serving revision, and any other's without
      the marker once it is served. */
  lemma LockRoutes(s: AuthSys, x: Answers)
    requires Inv(s) && (s.pc.LockRepoint? || s.pc.LockMarker?)
    ensures var t, l := Advance(s, x), s.pc.l;
            var keyed := Route([l.i.active], false, true);
            && t.w.auth == s.w.auth && t.w.policy == s.w.policy
            && t.w.route == (if x.op == Put && s.w.route.Some? then Some(keyed) else s.w.route)
            && (s.pc.LockRepoint? ==>
                  && (t.pc == LockProbe(l, keyed, false, s.pc.clean) <==> HasRoute(s, x, false))
                  && (Errs(t.pc, l) <==> x.op == RouteFails))
            && (s.pc.LockMarker? ==>
                  (Waits(t.pc, l) <==> HasRoute(s, x, false)) && (Errs(t.pc, l) <==> !HasRoute(s, x, false)))
  {
    hide Inv;
    Known(s);
  }

  /** The probe of a Lock: it ends served exactly on a 401 through a converged
      route, between clean reads, that a before-state or the card of the route's
      revision attributes. */
  lemma LockProbes(s: AuthSys, x: Answers)
    requires Inv(s) && s.pc.LockProbe?
    ensures var t, l := Advance(s, x), s.pc.l;
            && t.w == s.w.(log := t.w.log) && In(l.auth, Lock)
            && var a, tx := l.auth.value, l.auth.value.tx.value;
               var proves := x.code == 401 && s.pc.clean && x.cleanAfter
                             && (tx.beforeObserved || RouteCarded(l.i.cards, s.pc.rt));
               var ends := l.(auth := Some(AuthStatus(ApiKey, tx.targetDigest, None, NoClaims)), served := true);
               && (t.pc == Saving(ends, if a.mode == ApiKey then ToWait else ToMarker) <==> x.converged && proves)
               && (Waits(t.pc, l) <==> !x.converged)
               && (Stores(t.pc, l, l.auth, ToWait) <==> x.converged && !proves)
  {
    hide Inv, AttributesFrom;
    Known(s);
    if |s.pc.rt.backends| == 1 {
      AttributesExactly(s.pc.l.i.cards, s.pc.rt.backends[0]);
    }
  }

  // ------------------------------------------------------ the closing write

  predicate KeepsReads(l: Local, pc: Pc) {
    !pc.Idle? && pc.l.i == l.i && pc.l.judged == l.judged && pc.l.stored == l.stored
  }

  /** The pass goes on with the reads it began with, and has stored nothing. */
  predicate Keeps(w: World, l: Local, t: AuthSys) {
    t.w.auth == w.auth && KeepsReads(l, t.pc)
  }

  lemma DispatchKeeps(l: Local)
    ensures KeepsReads(l, Dispatch(l)) && KeepsReads(l, Dispatch(l.(auth := None)))
  {
  }

  lemma CreateKeeps(w: World, l: Local, x: Answers)
    ensures Keeps(w, l, CreateStep(w, l, x)) && Keeps(w, l, PublishStep(w, l, x))
  {
    hide Routed;
    RoutedIs(w, PublicationFor(l.auth), l.i.active, x.op);
  }

  lemma CreatePolicyKeeps(w: World, l: Local, created: bool, x: Answers)
    ensures Keeps(w, l, CreatePolicyStep(w, l, created, x))
  {
  }

  lemma LockEnterKeeps(w: World, l: Local, nacked: bool, clean: bool, x: Answers)
    ensures Keeps(w, l, LockEnterStep(w, l, x)) && Keeps(w, l, LockRepointStep(w, l, nacked, clean, x))
  {
    hide Routed;
    RoutedIs(w, PublicationFor(l.auth), l.i.active, x.op);
  }

  lemma LockKeeps(w: World, l: Local, rt: Route, x: Answers)
    ensures Keeps(w, l, LockStep(w, l, rt, x))
  {
  }

  lemma ProbeKeeps(w: World, l: Local, rt: Route, nacked: bool, clean: bool, x: Answers)
    ensures Keeps(w, l, LockProbeStep(w, l, rt, nacked, clean, x))
  {
  }

  lemma AbandonKeeps(w: World, l: Local, x: Answers)
    ensures Keeps(w, l, AdoptStep(w, l, x)) && Keeps(w, l, AbandonRouteStep(w, l, x))
    ensures Keeps(w, l, AbandonPolicyStep(w, l, x))
  {
    hide Dispatch, Routed;
    DispatchKeeps(l);
    RoutedIs(w, PublicationFor(l.auth), l.i.active, x.op);
  }

  lemma ServedKeeps(w: World, l: Local, x: Answers)
    ensures Keeps(w, l, ServedPolicyStep(w, l, x)) && Keeps(w, l, ReassertStep(w, l, x))
    ensures Keeps(w, l, ServedEnsureStep(w, l, x))
  {
    hide Routed;
    RoutedIs(w, PublicationFor(l.auth), l.i.active, x.op);
  }

  /** A pass keeps what it read when it began, and none but a save or the
      closing write stores anything. */
  lemma PassKeeps(s: AuthSys, x: Answers)
    requires !s.pc.Idle?
    ensures !Advance(s, x).pc.Idle? ==> KeepsReads(s.pc.l, Advance(s, x).pc)
    ensures !s.pc.Saving? && !s.pc.Closing? ==> Keeps(s.w, s.pc.l, Advance(s, x))
  {
    hide CreateStep, CreatePolicyStep, PublishStep, LockEnterStep, LockStep, LockRepointStep, LockProbeStep,
      AdoptStep, AbandonRouteStep, AbandonPolicyStep, ServedPolicyStep, ReassertStep, ServedEnsureStep, Dispatch;
    DispatchKeeps(s.pc.l);
    AbandonKeeps(s.w, s.pc.l, x);
    ServedKeeps(s.w, s.pc.l, x);
    CreateKeeps(s.w, s.pc.l, x);
    match s.pc
    case CreatePolicy(l, created) => CreatePolicyKeeps(s.w, l, created, x);
    case LockEnter(l) => LockEnterKeeps(s.w, l, false, false, x);
    case LockTurn(l, rt) => LockKeeps(s.w, l, rt, x);
    case LockRepoint(l, rt, nacked, clean) => LockEnterKeeps(s.w, l, nacked, clean, x);
    case LockProbe(l, rt, nacked, clean) => ProbeKeeps(s.w, l, rt, nacked, clean, x);
    case _ =>
  }

  predicate After(report: Reading, stood: bool) {
    report == Broken || (report == Unknown && stood)
  }

  /** Each claim on the closing write, from the report, the flag as it stood and
      the record. The route's and the policy's follow the Gateway's reports in a
      pass without error that began and ends on something served or adopted, and
      the key source's in a pass without error that ends on a settled apikey;
      an unknown report, and every other pass, holds what stood. A pass that
      recorded Served stands at no claims but the key source's. */
  lemma ClosesExactly(s: AuthSys, x: Answers)
    requires Inv(s) && s.pc.Closing?
    ensures var t, l, err := Advance(s, x), s.pc.l, s.pc.err;
            var judged := !err && l.judged && (In(l.auth, Adopt) || Serves(l.auth, NoAuth) || Serves(l.auth, ApiKey));
            var keyed := Serves(l.auth, ApiKey);
            var how := if l.served then AfterServed
                       else Judgement(if judged then x.route else Unknown, if judged then x.policy else Unknown,
                                      if keyed && !err then x.keys else Unknown);
            && t.pc.Idle? && (x.commit == CommitFails ==> t.w == s.w)
            && (x.commit != CommitFails ==>
                  && t.w == s.w.(auth := t.w.auth, log := s.w.log + [Saved(s.w.auth, t.w.auth, how)])
                  && (t.w.auth.Some? <==> l.auth.Some?)
                  && (l.auth.Some? ==>
                        var now := t.w.auth.value;
                        var was := if l.served then NoClaims else l.stored;
                        && now == l.auth.value.(claims := now.claims)
                        && (now.claims.routeRefused <==>
                              if judged then After(x.route, l.stored.routeRefused) else was.routeRefused)
                        && (now.claims.policyUnattached <==>
                              if judged then After(x.policy, l.stored.policyUnattached) else was.policyUnattached)
                        && (now.claims.keySourceEmpty <==>
                              if keyed && !err then After(x.keys, l.stored.keySourceEmpty)
                              else if keyed || judged then l.stored.keySourceEmpty else was.keySourceEmpty)))
            && (!l.served && s.w.auth.Some? ==> l.stored == s.w.auth.value.claims)
  {
    hide Advance, Savable, Shape, Around;
    Operation(s, x);
    Known(s);
  }
}
