/**
 The `-auth` transaction machine, one API operation at a time: what each pass of
 the Agent reconciler reads and writes of `status.auth`, `<agent>-serving` and
 `<agent>-auth`. One pass runs at a time. Between any two operations the process
 may stop, a foreign hand may delete or edit what it can reach, and every cached
 read may be stale.
 */
module AuthMachine {
  import opened Types
  import opened SendPredicates

  /** What a pass reads once: the desired mode and whether it compiles, the
      digest this operator renders, the serving revision, the cards, and the
      foreign traffic policies found. */
  datatype AuthIn = AuthIn(
    desired: Mode, inputOk: bool, rendered: Digest, active: Rev, cards: seq<Card>,
    foreign: bool, foreignOwn: bool, deadline: Instant)

  predicate Compiles(i: AuthIn) {
    i.inputOk && (i.desired == NoAuth || i.desired == ApiKey)
  }

  // ------------------------------------------------------------ the route

  datatype Publication = Prepared | Publish(mode: Mode)

  /** routePublicationFor. */
  function PublicationFor(auth: Option<AuthStatus>): Publication {
    if auth.None? then Publish(Unset)
    else if auth.value.tx.Some? && auth.value.tx.value.kind == Create then
      if auth.value.tx.value.stage == Publishing then Publish(auth.value.tx.value.targetMode) else Prepared
    else Publish(auth.value.mode)
  }

  /** servingRouteFor: the marker is there exactly while published under none. */
  function RouteFor(pub: Publication, active: Rev): Route {
    match pub
    case Prepared => Route([], false, true)
    case Publish(mode) => Route([active], mode == NoAuth, true)
  }

  /** How ensureServingRoute goes: its cached copy already matches, it writes,
      its cache shows no route, or an error. */
  datatype RouteOp = Skip | Put | Missing | RouteFails

  datatype Ensured = Got(rt: Route, created: bool) | Gone | Fails

  /** ensureServingRoute. An update is made against the version read, so one
      that commits read the live route; an API-key route is never created published. */
  function Ensure(route: Option<Route>, pub: Publication, active: Rev, op: RouteOp): (r: (Option<Route>, Ensured))
    ensures r.0 != route ==> r.1 == Got(RouteFor(pub, active), route.None?) && r.0 == Some(RouteFor(pub, active))
    ensures r.1.Got? ==> r.1.rt == RouteFor(pub, active)
    ensures r.1.Got? && r.1.created ==> route.None? && pub != Publish(ApiKey)
  {
    var want := RouteFor(pub, active);
    match op
    case Skip => (route, Got(want, false))
    case Put =>
      if route.Some? then (Some(want), Got(want, false))
      else if pub == Publish(ApiKey) then (route, Gone)
      else (Some(want), Got(want, true))
    case Missing => (route, if pub == Publish(ApiKey) then Gone else Fails)
    case RouteFails => (route, Fails)
  }

  // ----------------------------------------------------------- the policy

  /** authPolicyIntact: the digest covers the UID label, so an intact policy is this Agent's. */
  predicate Intact(policy: Option<Policy>, digest: Digest) {
    Own(policy) && policy.value.digest == digest
  }

  /** ensureAuthPolicy writes over nothing, or over this Agent's own. */
  predicate Writable(policy: Option<Policy>) {
    policy.Some? ==> policy.value.own
  }

  // ---------------------------------------------------------- the records

  function TxOf(auth: Option<AuthStatus>): Option<Tx> {
    if auth.Some? then auth.value.tx else None
  }

  function ModeOf(auth: Option<AuthStatus>): Mode {
    if auth.Some? then auth.value.mode else Unset
  }

  /** storedClaims. */
  function ClaimsOf(auth: Option<AuthStatus>): Claims {
    if auth.Some? then auth.value.claims else NoClaims
  }

  predicate HasTx(auth: Option<AuthStatus>, kind: Kind) {
    TxOf(auth).Some? && TxOf(auth).value.kind == kind
  }

  /** abandons: a spec edit moved the target of a transaction that is not a re-creation. */
  predicate Abandons(auth: Option<AuthStatus>, desired: Mode) {
    && TxOf(auth).Some? && !IsReCreation(auth)
    && var tx := TxOf(auth).value;
       tx.kind != Adopt && tx.targetMode != Unset && tx.targetMode != desired
  }

  predicate K2Consent(tx: Tx, desired: Mode) {
    desired == ApiKey && tx.refusedMode != Unset && tx.refusedMode != ApiKey
  }

  /** createTarget finds what the transaction recorded. */
  predicate Renders(tx: Tx, i: AuthIn) {
    tx.targetMode == NoAuth || (tx.targetMode == ApiKey && tx.targetDigest == i.rendered)
  }

  function NewTx(kind: Kind, mode: Mode, digest: Digest, stage: Stage, written: bool, deadline: Instant): Tx {
    Tx(kind, mode, digest, stage, written, false, 0, Unset, Some(deadline))
  }

  function WithTx(a: AuthStatus, tx: Tx): AuthStatus { a.(tx := Some(tx)) }

  /** servedRecord. */
  function ServedRecord(tx: Tx): AuthStatus {
    AuthStatus(tx.targetMode, if tx.targetMode == ApiKey then tx.targetDigest else 0, None, NoClaims)
  }

  function AdoptRecord(prev: Option<AuthStatus>, desired: Mode): AuthStatus {
    var kept := HasTx(prev, Adopt) && desired == ApiKey && TxOf(prev).value.refusedMode != Unset;
    var refused := if kept then TxOf(prev).value.refusedMode else desired;
    AuthStatus(Unset, 0, Some(Tx(Adopt, Unset, 0, Refused, false, false, 0, refused, None)), ClaimsOf(prev))
  }

  predicate JudgesServed(auth: Option<AuthStatus>) {
    auth.Some? && (if auth.value.tx.None? then auth.value.mode != Unset else auth.value.tx.value.kind == Adopt)
  }

  predicate JudgesKeys(auth: Option<AuthStatus>) {
    auth.Some? && auth.value.mode == ApiKey && auth.value.tx.None?
  }

  // ----------------------------------------------------------- the history

  datatype Reading = Unknown | Holding | Broken

  /** How a write of status.auth came about: a transaction's step, a pass's
      closing write with what it read of the Gateway's reports, or a write of a
      pass that recorded Served. */
  datatype SaveKind = Plain | Judgement(route: Reading, policy: Reading, keys: Reading) | AfterServed

  /** An anonymous answer, and what stood around it: a fresh NACK, a foreign
      policy, and the Gateway-level reads before and after it. */
  datatype Answer = Answer(nacked: bool, foreign: bool, cleanBefore: bool, code: nat, cleanAfter: bool)

  /** What ties a Lock's 401 to the policy: the revision a 200 was seen on
      before, the one the route names now, and whether its card is recorded. */
  datatype Attribution = Attribution(converged: bool, before: Option<Rev>, backend: Option<Rev>, carded: bool)

  datatype Event =
    | Began(i: AuthIn)
    | Saved(was: Option<AuthStatus>, now: Option<AuthStatus>, how: SaveKind)
    | PolicySeen(found: Option<Policy>)
    | PolicyRead(found: Option<Policy>, target: Digest)
    | Reasserted(found: Option<Policy>, left: Option<Policy>, rendered: Digest, applied: Digest)
    | BeforeAnswered(auth: Option<AuthStatus>, rt: Route, cards: seq<Card>, code: nat, body: Digest)
    | Credited(auth: Option<AuthStatus>, answer: Answer)
    | LockCredited(auth: Option<AuthStatus>, answer: Answer, tie: Attribution)
    | LockWaits(auth: Option<AuthStatus>, rt: Route, active: Rev)
    | RouteWritten(auth: Option<AuthStatus>, rt: Route, created: bool)
    | RouteRemoved
    | PolicyWritten(auth: Option<AuthStatus>, digest: Digest)
    | PolicyDeleted(auth: Option<AuthStatus>, published: bool)

  // ------------------------------------------------------------- the pass

  /** A pass: its reads, its working status.auth, the claims and the judgement
      it started with, and whether it recorded Served. */
  datatype Local = Local(i: AuthIn, auth: Option<AuthStatus>, judged: bool, stored: Claims, served: bool)

  datatype Next = ToDispatch | ToCreate | ToLock | ToLockWith(rt: Route) | ToMarker | ToWait

  datatype Pc =
    | Idle
    | EntryRead(l: Local)
    | AdoptEnsure(l: Local)
    | AbandonRoute(l: Local)
    | AbandonDelete(l: Local)
    | AbandonConfirm(l: Local)
    | AbandonPolicy(l: Local)
    | AbandonPolicyConfirm(l: Local)
    | CollectAll(l: Local)
    | CreateTurn(l: Local)
    | CreatePolicy(l: Local, created: bool)
    | PublishRoute(l: Local)
    | LockEnter(l: Local)
    | LockTurn(l: Local, rt: Route)
    | LockRepoint(l: Local, rt: Route, nacked: bool, clean: bool)
    | LockProbe(l: Local, rt: Route, nacked: bool, clean: bool)
    | LockMarker(l: Local)
    | ServedRoute(l: Local)
    | ServedPolicy(l: Local)
    | ServedReassert(l: Local)
    | ServedEnsure(l: Local)
    | Saving(l: Local, next: Next)
    | Closing(l: Local, err: bool)

  /** What a pass acts on: the stored status.auth, the two objects and the
      history. `emptyStart` says no published route was there to begin with. */
  datatype World = World(
    auth: Option<AuthStatus>, route: Option<Route>, policy: Option<Policy>, log: seq<Event>, emptyStart: bool)

  datatype AuthSys = AuthSys(w: World, pc: Pc)

  datatype Commit = CommitAck | CommitLost | CommitFails

  /** Everything one operation may answer. `seen` is a cached route. */
  datatype Answers = Answers(
    ok: bool, op: RouteOp, seen: Option<Route>, gone: bool,
    nack: bool, converged: bool, cleanBefore: bool, code: nat, body: Digest, cleanAfter: bool,
    commit: Commit, route: Reading, policy: Reading, keys: Reading)

  datatype Action =
    | Begin(i: AuthIn)
    | Do(x: Answers)
    | Crash
    | MoveRoute(route: Option<Route>)
    | MovePolicy(policy: Option<Policy>)

  function Init(route: Option<Route>, policy: Option<Policy>): AuthSys {
    AuthSys(World(None, route, policy, [], !RouteUp(route)), Idle)
  }

  predicate RouteUp(route: Option<Route>) {
    route.Some? && Published(route.value)
  }

  function Log(w: World, e: Event): World { w.(log := w.log + [e]) }

  function At(w: World, pc: Pc): AuthSys { AuthSys(w, pc) }

  /** ensureServingRoute's write, with its entry in the history. */
  function Routed(w: World, pub: Publication, active: Rev, op: RouteOp): (World, Ensured) {
    var r := Ensure(w.route, pub, active, op);
    (if r.0 == w.route then w
     else Log(w.(route := r.0), RouteWritten(w.auth, RouteFor(pub, active), w.route.None?)), r.1)
  }

  function Stored(l: Local, auth: AuthStatus): Local { l.(auth := Some(auth)) }

  function ToStage(l: Local, tx: Tx, stage: Stage): Local
    requires l.auth.Some?
  {
    Stored(l, WithTx(l.auth.value, tx.(stage := stage)))
  }

  /** recreateRoute. */
  function Recreate(l: Local): Pc
    requires l.auth.Some?
  {
    var a := l.auth.value;
    Saving(Stored(l, WithTx(a, NewTx(Create, a.mode, a.appliedDigest, PreparingRoute, false, l.i.deadline))), ToCreate)
  }

  /** lockMissingPolicy. */
  function LockMissing(l: Local): Pc
    requires l.auth.Some?
  {
    var a := l.auth.value;
    Saving(Stored(l, WithTx(a, NewTx(Lock, a.mode, a.appliedDigest, ApplyingPolicies, true, l.i.deadline))), ToLock)
  }

  /** enterLock: K2 keeps only the claims, J2 keeps the record. */
  function EnterLock(l: Local): Pc {
    var tx := NewTx(Lock, ApiKey, l.i.rendered, ProbingBefore, false, l.i.deadline);
    var a := if ModeOf(l.auth) == Unset then AuthStatus(Unset, 0, Some(tx), ClaimsOf(l.auth))
             else WithTx(l.auth.value, tx);
    Saving(Stored(l, a), ToLock)
  }

  /** authStep's switch. */
  function Dispatch(l: Local): Pc {
    if HasTx(l.auth, Create) then
      if Renders(TxOf(l.auth).value, l.i) then CreateTurn(l) else Closing(l, true)
    else if HasTx(l.auth, Lock) then LockEnter(l)
    else if HasTx(l.auth, Adopt) then Closing(l, true)
    else if ModeOf(l.auth) == NoAuth && Compiles(l.i) && l.i.desired == ApiKey && l.i.active != 0 then EnterLock(l)
    else if ModeOf(l.auth) != Unset then
      if l.i.active == 0 then CollectAll(l)
      else if ModeOf(l.auth) == ApiKey then ServedRoute(l) else ServedEnsure(l)
    else if !Compiles(l.i) || l.i.active == 0 then CollectAll(l)
    else
      var tx := NewTx(Create, l.i.desired, if l.i.desired == ApiKey then l.i.rendered else 0,
                      if l.i.desired == NoAuth then Publishing else PreparingRoute, false, l.i.deadline);
      var a := if l.auth.Some? then WithTx(l.auth.value, tx) else AuthStatus(Unset, 0, Some(tx), NoClaims);
      Saving(Stored(l, a), ToCreate)
  }

  /** authStep's head. */
  function Head(auth: Option<AuthStatus>, i: AuthIn): Pc {
    var l := Local(i, auth, JudgesServed(auth), ClaimsOf(auth), false);
    if HasTx(auth, Adopt) then
      if K2Consent(TxOf(auth).value, i.desired) && Compiles(i) && i.active != 0 then EnterLock(l) else AdoptEnsure(l)
    else if TxOf(auth).None? && ModeOf(auth) == Unset then EntryRead(l)
    else if Abandons(auth, i.desired) then
      if HasTx(auth, Create) then AbandonRoute(l) else AbandonPolicy(l)
    else Dispatch(l)
  }

  /** What an abandonment records once everything it must remove is gone. */
  function AbandonRecord(l: Local): Pc
    requires l.auth.Some?
  {
    if HasTx(l.auth, Lock) then
      if ModeOf(l.auth) == Unset then AdoptEnsure(l)
      else Saving(Stored(l, AuthStatus(ModeOf(l.auth), 0, None, ClaimsOf(l.auth))), ToDispatch)
    else if Compiles(l.i) then Dispatch(l.(auth := None))
    else Saving(l.(auth := None), ToDispatch)
  }

  /** A wait keeps what the transaction has reached. */
  function Wait(l: Local): Pc { Closing(l, false) }

  function Error(l: Local): Pc { Closing(l, true) }

  // --------------------------------------------------- runCreate, by turns

  /** A turn of runCreate up to its first read of the policy. */
  function CreateStep(w: World, l: Local, x: Answers): AuthSys {
    if TxOf(l.auth).None? then At(w, Error(l)) else
    var tx := TxOf(l.auth).value;
    match tx.stage
    case PreparingRoute =>
      var (w1, r) := Routed(w, PublicationFor(l.auth), l.i.active, x.op);
      if !r.Got? then At(w1, Error(l))
      else At(w1, Saving(ToStage(l, tx.(written := true), ApplyingPolicies), ToCreate))
    case ApplyingPolicies =>
      if l.i.foreignOwn then At(w, Wait(l))
      else if !x.ok || !Writable(w.policy) then At(w, Error(l))
      else At(WritePolicy(w, tx.targetDigest), Saving(ToStage(l, tx, Converging), ToCreate))
    case Converging =>
      var (w1, r) := Routed(w, PublicationFor(l.auth), l.i.active, x.op);
      At(w1, if r.Got? then CreatePolicy(l, r.created) else Error(l))
    case ProbingAfter =>
      var (w1, r) := Routed(w, PublicationFor(l.auth), l.i.active, x.op);
      At(w1, if r.Got? then CreatePolicy(l, r.created) else Error(l))
    case Publishing =>
      if tx.targetMode != ApiKey then At(w, PublishRoute(l))
      else if !x.ok then At(w, Error(l))
      else
        var intact := Intact(w.policy, tx.targetDigest);
        At(Log(w, PolicyRead(w.policy, tx.targetDigest)),
           if intact then PublishRoute(l) else Saving(ToStage(l, tx, PreparingRoute), ToCreate))
    case _ => At(w, Error(l))
  }

  function WritePolicy(w: World, digest: Digest): World {
    if Intact(w.policy, digest) then w
    else Log(w.(policy := Some(Policy(true, digest))), PolicyWritten(w.auth, digest))
  }

  /** The rest of a turn at Converging or ProbingAfter. */
  function CreatePolicyStep(w: World, l: Local, created: bool, x: Answers): AuthSys {
    if TxOf(l.auth).None? || !x.ok then At(w, Error(l)) else
    var target := TxOf(l.auth).value.targetDigest;
    AfterPolicyRead(Log(w, PolicyRead(w.policy, target)), l, created, Intact(w.policy, target), x)
  }

  function AfterPolicyRead(w: World, l: Local, created: bool, intact: bool, x: Answers): AuthSys {
    if TxOf(l.auth).None? then At(w, Error(l)) else
    var tx := TxOf(l.auth).value;
    if created || !intact then At(w, Saving(ToStage(l, tx, ApplyingPolicies), ToCreate))
    else if x.nack then
      At(w, if tx.stage == Converging then Wait(l) else Saving(ToStage(l, tx, Converging), ToWait))
    else if tx.stage == Converging then
      At(w, if x.converged then Saving(ToStage(l, tx, ProbingAfter), ToCreate) else Wait(l))
    else if l.i.foreign then At(w, Wait(l))
    else if x.code == 401 && x.cleanBefore && x.cleanAfter then
      At(Log(w, Credited(w.auth, Answer(x.nack, l.i.foreign, x.cleanBefore, x.code, x.cleanAfter))),
         Saving(ToStage(l, tx, Publishing), ToCreate))
    else At(w, Saving(l, ToWait))
  }

  /** Publishing, the policy read intact where the target has one. */
  function PublishStep(w: World, l: Local, x: Answers): AuthSys {
    if TxOf(l.auth).None? then At(w, Error(l)) else
    var tx := TxOf(l.auth).value;
    if l.i.active == 0 || l.i.foreign then At(w, Wait(l))
    else if x.seen.None? && tx.targetMode == ApiKey then At(w, Saving(ToStage(l, tx, PreparingRoute), ToCreate))
    else
      var (w1, r) := Routed(w, PublicationFor(l.auth), l.i.active, x.op);
      match r
      case Gone => At(w1, Saving(ToStage(l, tx, PreparingRoute), ToCreate))
      case Fails => At(w1, Error(l))
      case Got(_, _) =>
        if !x.converged then At(w1, Wait(l))
        else At(w1, Saving(Stored(l, ServedRecord(tx)).(served := true), ToWait))
  }

  // ----------------------------------------------------- runLock, by turns

  function LockEnterStep(w: World, l: Local, x: Answers): AuthSys {
    if TxOf(l.auth).None? || !Renders(TxOf(l.auth).value, l.i) then At(w, Error(l)) else
    var tx := TxOf(l.auth).value;
    if IsReCreation(l.auth) then
      if !RouteUp(x.seen) && l.i.active != 0 then At(w, Recreate(l))
      else if x.seen.None? then At(w, Error(l))
      else At(w, LockTurn(l, x.seen.value))
    else if l.i.active == 0 then At(w, Error(l))
    else
      var (w1, r) := Routed(w, PublicationFor(l.auth), l.i.active, x.op);
      if !r.Got? then At(w1, Error(l))
      else if tx.beforeRevision != 0 && SingleBackend(r.rt) != Some(tx.beforeRevision) then
        At(w1, Saving(Stored(l, WithTx(l.auth.value, tx.(beforeObserved := false, beforeRevision := 0))),
                      ToLockWith(r.rt)))
      else At(w1, LockTurn(l, r.rt))
  }

  function LockStep(w: World, l: Local, rt: Route, x: Answers): AuthSys {
    if TxOf(l.auth).None? then At(w, Error(l)) else
    var tx := TxOf(l.auth).value;
    match tx.stage
    case ProbingBefore =>
      var w1 := if x.ok then Log(w, BeforeAnswered(w.auth, rt, l.i.cards, x.code, x.body)) else w;
      var rev := if x.ok then BeforeRevisionFor(l.i.cards, rt, x.code, x.body) else 0;
      var tx1 := if rev != 0 then tx.(beforeObserved := true, beforeRevision := rev) else tx;
      At(w1, Saving(ToStage(l, tx1.(written := true), ApplyingPolicies), ToLockWith(rt)))
    case ApplyingPolicies =>
      if l.i.foreignOwn then At(w, Wait(l))
      else if !x.ok || !Writable(w.policy) then At(w, Error(l))
      else At(WritePolicy(w, tx.targetDigest), Saving(ToStage(l, tx, Converging), ToLockWith(rt)))
    case Converging => LockPolicyStep(w, l, tx, rt, x)
    case ProbingAfter => LockPolicyStep(w, l, tx, rt, x)
    case _ => At(w, Error(l))
  }

  function LockPolicyStep(w: World, l: Local, tx: Tx, rt: Route, x: Answers): AuthSys {
    if l.auth.None? || !x.ok then At(w, Error(l)) else
    var target := tx.targetDigest;
    AfterLockRead(Log(w, PolicyRead(w.policy, target)), l, tx, rt, Intact(w.policy, target), x)
  }

  function AfterLockRead(w: World, l: Local, tx: Tx, rt: Route, intact: bool, x: Answers): AuthSys
    requires l.auth.Some?
  {
    if !intact then At(w, Saving(ToStage(l, tx, ApplyingPolicies), ToLockWith(rt)))
    else if x.nack then
      At(w, if tx.stage == Converging then Wait(l) else Saving(ToStage(l, tx, Converging), ToWait))
    else if tx.stage == Converging then
      At(w, if x.converged then Saving(ToStage(l, tx, ProbingAfter), ToLockWith(rt)) else Wait(l))
    else if l.i.foreign then At(Log(w, LockWaits(l.auth, rt, l.i.active)), Wait(l))
    else if IsReCreation(l.auth) && CardedRevision(l.i.cards, l.i.active) then
      At(w, LockRepoint(l, rt, x.nack, x.cleanBefore))
    else At(w, LockProbe(l, rt, x.nack, x.cleanBefore))
  }

  /** The re-point of a missing-policy Lock, onto a carded active revision. */
  function LockRepointStep(w: World, l: Local, nacked: bool, clean: bool, x: Answers): AuthSys {
    if l.auth.None? then At(w, Error(l)) else
    var (w1, r) := Routed(w, PublicationFor(l.auth), l.i.active, x.op);
    match r
    case Gone => At(w1, Recreate(l))
    case Fails => At(w1, Error(l))
    case Got(rt, _) => At(w1, LockProbe(l, rt, nacked, clean))
  }

  function LockProbeStep(w: World, l: Local, rt: Route, nacked: bool, clean: bool, x: Answers): AuthSys {
    if TxOf(l.auth).None? then At(w, Error(l)) else
    var tx := TxOf(l.auth).value;
    var carded := CardAttributes(l.i.cards, rt);
    if !x.converged then At(Log(w, LockWaits(l.auth, rt, l.i.active)), Wait(l))
    else if x.code == 401 && (tx.beforeObserved || carded) && clean && x.cleanAfter then
      var tie := Attribution(x.converged, if tx.beforeObserved then Some(tx.beforeRevision) else None,
                             SingleBackend(rt), carded);
      At(Log(w, LockCredited(w.auth, Answer(nacked, l.i.foreign, clean, x.code, x.cleanAfter), tie)),
         Saving(Stored(l, ServedRecord(tx)).(served := true), if IsReCreation(l.auth) then ToWait else ToMarker))
    else At(Log(w, LockWaits(l.auth, rt, l.i.active)), Saving(l, ToWait))
  }

  // ------------------------------------------------------ one operation

  /** Saving: persistStatus, and where the pass goes on from it. */
  function Continue(l: Local, next: Next): Pc {
    match next
    case ToDispatch => Dispatch(l)
    case ToCreate => if HasTx(l.auth, Create) && Renders(TxOf(l.auth).value, l.i) then CreateTurn(l) else Error(l)
    case ToLock => LockEnter(l)
    case ToLockWith(rt) => LockTurn(l, rt)
    case ToMarker => LockMarker(l)
    case ToWait => Wait(l)
  }

  function Save(w: World, l: Local, how: SaveKind): World {
    Log(w.(auth := l.auth), Saved(w.auth, l.auth, if l.served then AfterServed else how))
  }

  function SaveStep(w: World, l: Local, next: Next, commit: Commit): AuthSys {
    match commit
    case CommitAck => At(Save(w, l, Plain), Continue(l, next))
    case CommitLost => At(Save(w, l, Plain), Idle)
    case CommitFails => At(w, Error(l))
  }

  /** judgeServed and judgeKeySource, or on an errored pass their holds: each
      claim moves on a decisive report and is otherwise as stored. */
  function Heard(l: Local, err: bool, x: Answers): SaveKind {
    var servedHeard := l.judged && !err && JudgesServed(l.auth);
    Judgement(if servedHeard then x.route else Unknown,
              if servedHeard then x.policy else Unknown,
              if !err && JudgesKeys(l.auth) then x.keys else Unknown)
  }

  function Claim(r: Reading, stored: bool): bool {
    match r
    case Unknown => stored
    case Holding => false
    case Broken => true
  }

  function ClosingAuth(l: Local, err: bool, x: Answers): Option<AuthStatus> {
    if l.auth.None? then None
    else
      var heard := Heard(l, err, x);
      var c := l.auth.value.claims;
      var c1 := if l.judged && !err && JudgesServed(l.auth)
                then Claims(Claim(heard.route, l.stored.routeRefused), Claim(heard.policy, l.stored.policyUnattached),
                            l.stored.keySourceEmpty)
                else c;
      var c2 := if JudgesKeys(l.auth) then c1.(keySourceEmpty := Claim(heard.keys, l.stored.keySourceEmpty)) else c1;
      Some(l.auth.value.(claims := c2))
  }

  /** The closing write. */
  function CloseStep(w: World, l: Local, err: bool, x: Answers): AuthSys {
    At(if x.commit == CommitFails then w else Save(w, l.(auth := ClosingAuth(l, err, x)), Heard(l, err, x)), Idle)
  }

  function AdoptStep(w: World, l: Local, x: Answers): AuthSys {
    var record := Saving(Stored(l, AdoptRecord(l.auth, l.i.desired)), ToWait);
    if l.i.active == 0 then At(w, record)
    else
      var (w1, r) := Routed(w, PublicationFor(l.auth), l.i.active, x.op);
      At(w1, if r.Got? then record else Error(l))
  }

  function AbandonRouteStep(w: World, l: Local, x: Answers): AuthSys {
    if !x.ok then At(w, Error(l))
    else
      var w1 := if RouteUp(w.route) then Log(w.(route := Some(w.route.value.(backends := []))), RouteRemoved) else w;
      At(w1, if w1.route.Some? && !Compiles(l.i) then AbandonDelete(l) else AbandonPolicy(l))
  }

  function AbandonPolicyStep(w: World, l: Local, x: Answers): AuthSys {
    if TxOf(l.auth).None? then At(w, Error(l))
    else if !TxOf(l.auth).value.written then At(w, AbandonRecord(l))
    else if !x.ok then At(w, Error(l))
    else if !Own(w.policy) then At(w, AbandonRecord(l))
    else
      var w1 := Log(w, PolicyDeleted(w.auth, RouteUp(w.route)));
      At(if x.gone then w1.(policy := None) else w1, AbandonPolicyConfirm(l))
  }

  function ServedPolicyStep(w: World, l: Local, x: Answers): AuthSys {
    if l.auth.None? || !x.ok then At(w, Error(l))
    else At(Log(w, PolicySeen(w.policy)), if w.policy.Some? then ServedReassert(l) else LockMissing(l))
  }

  /** reassertServedPolicy: only this Agent's own policy, and only to what status records. */
  function ReassertStep(w: World, l: Local, x: Answers): AuthSys {
    if l.auth.None? || !x.ok then At(w, Error(l))
    else
      var applied := l.auth.value.appliedDigest;
      var w1 := if Own(w.policy) && l.i.rendered == applied then WritePolicy(w, applied) else w;
      At(Log(w1, Reasserted(w.policy, w1.policy, l.i.rendered, applied)), ServedEnsure(l))
  }

  function ServedEnsureStep(w: World, l: Local, x: Answers): AuthSys {
    if l.auth.None? then At(w, Error(l))
    else
      var (w1, r) := Routed(w, PublicationFor(l.auth), l.i.active, x.op);
      match r
      case Gone => At(w1, Recreate(l))
      case Fails => At(w1, Error(l))
      case Got(_, _) => At(w1, Wait(l))
  }

  /** One operation of the pass in flight. */
  function Advance(s: AuthSys, x: Answers): AuthSys {
    var w := s.w;
    match s.pc
    case Idle => s
    case EntryRead(l) =>
      At(w, if !x.ok then Error(l) else if RouteUp(w.route) then AdoptEnsure(l) else Dispatch(l))
    case AdoptEnsure(l) => AdoptStep(w, l, x)
    case AbandonRoute(l) => AbandonRouteStep(w, l, x)
    case AbandonDelete(l) =>
      if !x.ok then At(w, Error(l))
      else At(if x.gone then Log(w.(route := None), RouteRemoved) else w, AbandonConfirm(l))
    case AbandonConfirm(l) =>
      At(w, if !x.ok then Error(l) else if w.route.Some? then Wait(l) else AbandonPolicy(l))
    case AbandonPolicy(l) => AbandonPolicyStep(w, l, x)
    case AbandonPolicyConfirm(l) =>
      At(w, if !x.ok || l.auth.None? then Error(l) else if w.policy.Some? then Wait(l) else AbandonRecord(l))
    case CollectAll(l) =>
      if !x.ok then At(w, Error(l))
      else At(if x.gone && w.route.Some? && w.route.value.labelled then Log(w.(route := None), RouteRemoved) else w,
              Wait(l))
    case CreateTurn(l) => CreateStep(w, l, x)
    case CreatePolicy(l, created) => CreatePolicyStep(w, l, created, x)
    case PublishRoute(l) => PublishStep(w, l, x)
    case LockEnter(l) => LockEnterStep(w, l, x)
    case LockTurn(l, rt) => LockStep(w, l, rt, x)
    case LockRepoint(l, rt, nacked, clean) => LockRepointStep(w, l, nacked, clean, x)
    case LockProbe(l, rt, nacked, clean) => LockProbeStep(w, l, rt, nacked, clean, x)
    case LockMarker(l) =>
      var (w1, r) := Routed(w, PublicationFor(l.auth), l.i.active, x.op);
      At(w1, if r.Got? then Wait(l) else Error(l))
    case ServedRoute(l) =>
      At(w, if !x.ok || l.auth.None? then Error(l) else if RouteUp(x.seen) then ServedPolicy(l) else Recreate(l))
    case ServedPolicy(l) => ServedPolicyStep(w, l, x)
    case ServedReassert(l) => ReassertStep(w, l, x)
    case ServedEnsure(l) => ServedEnsureStep(w, l, x)
    case Saving(l, next) => SaveStep(w, l, next, x.commit)
    case Closing(l, err) => CloseStep(w, l, err, x)
  }

  /** The environment writes no backendRefs and forges no UID label. */
  predicate RouteMay(was: Option<Route>, now: Option<Route>) {
    now.Some? ==>
      && (now.value.backends == [] || (was.Some? && now.value.backends == was.value.backends))
      && (now.value.labelled ==> was.Some? && was.value.labelled)
  }

  predicate PolicyMay(was: Option<Policy>, now: Option<Policy>) {
    Own(now) ==> Own(was)
  }

  function Step(s: AuthSys, a: Action): AuthSys {
    match a
    case Begin(i) => if s.pc.Idle? then At(Log(s.w, Began(i)), Head(s.w.auth, i)) else s
    case Do(x) => Advance(s, x)
    case Crash => At(s.w, Idle)
    case MoveRoute(route) => if RouteMay(s.w.route, route) then s.(w := s.w.(route := route)) else s
    case MovePolicy(policy) => if PolicyMay(s.w.policy, policy) then s.(w := s.w.(policy := policy)) else s
  }

  function Run(s: AuthSys, actions: seq<Action>): AuthSys {
    if actions == [] then s else Step(Run(s, actions[..|actions| - 1]), actions[|actions| - 1])
  }
}
