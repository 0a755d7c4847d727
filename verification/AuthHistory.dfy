/**
 What the history of the `-auth` machine says at any point of a run, read off it
 entry by entry, and what each entry must find when it is made.
 */
module AuthHistory {
  import opened Types
  import opened SendPredicates
  import opened AuthMachine

  // --------------------------------------------------------- the records

  predicate Settled(auth: Option<AuthStatus>, mode: Mode) {
    auth.Some? && auth.value.tx.None? && auth.value.mode == mode
  }

  predicate AtStage(auth: Option<AuthStatus>, stage: Stage) {
    TxOf(auth).Some? && TxOf(auth).value.stage == stage
  }

  predicate ApiKeyCreate(auth: Option<AuthStatus>) {
    HasTx(auth, Create) && TxOf(auth).value.targetMode == ApiKey
  }

  predicate AtPublishing(auth: Option<AuthStatus>) {
    ApiKeyCreate(auth) && AtStage(auth, Publishing)
  }

  /** An API-key Agent's route: served under apikey, or a Create that targets it. */
  predicate ApiKeyRoute(auth: Option<AuthStatus>) {
    ModeOf(auth) == ApiKey || ApiKeyCreate(auth)
  }

  /** A record in which this Agent's policy may exist: it was written ahead. */
  predicate Covers(auth: Option<AuthStatus>) {
    ModeOf(auth) == ApiKey || (TxOf(auth).Some? && TxOf(auth).value.written)
  }

  predicate OneWay(was: Option<AuthStatus>, now: Option<AuthStatus>) {
    ModeOf(was) == ApiKey ==> ModeOf(now) == ApiKey && now.value.appliedDigest == was.value.appliedDigest
  }

  /** A transaction less its stage: what stays the same as it moves. */
  function Core(tx: Tx): Tx { tx.(stage := Refused) }

  /** A Lock as it stands once a 200 was seen on `rev`. */
  function Seen(tx: Tx, rev: Rev): Tx {
    Core(tx).(written := true, beforeObserved := true, beforeRevision := rev)
  }

  /** A Create or a Lock, not of what is already served, that was not there before. */
  predicate Enters(was: Option<AuthStatus>, now: Option<AuthStatus>) {
    && RecordedTransaction(now).Some? && !IsReCreation(now)
    && var tx := RecordedTransaction(now).value;
       !(HasTx(was, tx.kind) && TxOf(was).value.targetMode == tx.targetMode)
  }

  /** The pass may enter it: its input compiles to that target, and a revision serves. */
  predicate MayEnter(i: Option<AuthIn>, now: Option<AuthStatus>) {
    && i.Some? && Compiles(i.value) && i.value.active != 0
    && TxOf(now).Some? && TxOf(now).value.targetMode == i.value.desired
  }

  /** A Create that is not a re-creation acts only for the mode its pass wants. */
  predicate OnTarget(i: Option<AuthIn>, auth: Option<AuthStatus>) {
    HasTx(auth, Create) && !IsReCreation(auth) ==> i.Some? && TxOf(auth).value.targetMode == i.value.desired
  }

  /** The route a pass writes under a stored record: prepared with no
      backendRefs while a Create has not come to Publishing, otherwise on the
      serving revision and no other; under a Create only while no foreign policy
      stands; and marked exactly while it is published under none. */
  predicate RouteOf(i: AuthIn, auth: Option<AuthStatus>, rt: Route) {
    && rt.labelled
    && rt.backends == (if HasTx(auth, Create) && !AtStage(auth, Publishing) then [] else [i.active])
    && (Published(rt) ==> i.active != 0 && (HasTx(auth, Create) ==> !i.foreign))
    && (rt.marker <==>
          Published(rt) && NoAuth == if HasTx(auth, Create) then TxOf(auth).value.targetMode else ModeOf(auth))
  }

  /** The policy a pass writes: what this operator renders and the record says,
      for a transaction at ApplyingPolicies with no foreign hand on it, or for
      what is served. */
  predicate PolicyOf(i: AuthIn, auth: Option<AuthStatus>, digest: Digest) {
    && digest == i.rendered
    && (if TxOf(auth).Some?
        then AtStage(auth, ApplyingPolicies) && TxOf(auth).value.targetDigest == digest && !i.foreignOwn
        else Settled(auth, ApiKey) && auth.value.appliedDigest == digest)
  }

  /** A Create or a Lock that is no longer there. */
  predicate Ended(was: Option<AuthStatus>, now: Option<AuthStatus>) {
    && RecordedTransaction(was).Some?
    && var tx := RecordedTransaction(was).value;
       !(HasTx(now, tx.kind) && TxOf(now).value.targetMode == tx.targetMode)
  }

  /** Its target is served: a Create's from Publishing, in a pass with a
      revision serving and no foreign policy. */
  predicate EndsServed(i: AuthIn, was: Option<AuthStatus>, now: Option<AuthStatus>) {
    && TxOf(was).Some? && Settled(now, TxOf(was).value.targetMode)
    && (HasTx(was, Create) ==> AtStage(was, Publishing) && i.active != 0 && !i.foreign)
  }

  /** A missing-policy Lock whose route is gone too gives way to a re-creation. */
  predicate EndsRecreating(was: Option<AuthStatus>, now: Option<AuthStatus>) {
    HasTx(was, Lock) && IsReCreation(was) && HasTx(now, Create) && IsReCreation(now)
  }

  /** It was given up by a pass that wants another mode: a Create leaves nothing
      or the Create that pass wants, a J2 Lock the none it started from, a K2
      Lock the refused Adopt. */
  predicate EndsGivenUp(i: AuthIn, was: Option<AuthStatus>, now: Option<AuthStatus>) {
    && TxOf(was).Some? && !IsReCreation(was) && TxOf(was).value.targetMode != i.desired
    && (if HasTx(was, Create) then now.None? || (HasTx(now, Create) && TxOf(now).value.targetMode == i.desired)
        else if ModeOf(was) == Unset then HasTx(now, Adopt)
        else Settled(now, ModeOf(was)))
  }

  predicate EndsWell(i: Option<AuthIn>, was: Option<AuthStatus>, now: Option<AuthStatus>) {
    && i.Some?
    && (EndsServed(i.value, was, now) || EndsRecreating(was, now) || EndsGivenUp(i.value, was, now))
  }

  /** A refused Adopt records a mode some pass wanted, and gives way only to a
      K2 Lock, once that mode is one it may come from. */
  predicate AdoptOk(asked: set<Mode>, was: Option<AuthStatus>, now: Option<AuthStatus>) {
    && (HasTx(now, Adopt) ==> TxOf(now).value.refusedMode in asked)
    && (HasTx(was, Adopt) && !HasTx(now, Adopt) ==>
          && HasTx(now, Lock) && TxOf(now).value.targetMode == ApiKey && ModeOf(now) == Unset
          && TxOf(was).value.refusedMode in asked - {Unset, ApiKey})
  }

  // -------------------------------------------------------- the readings

  /** A 401 with nothing else there to have answered it. */
  predicate CleanAnswer(a: Answer) {
    !a.nacked && !a.foreign && a.cleanBefore && a.code == 401 && a.cleanAfter
  }

  /** The 401 is tied to the policy: a 200 was seen before on the revision the
      route's one backendRef still names, or that revision's card is recorded. */
  predicate Attributed(a: Answer, tie: Attribution) {
    CleanAnswer(a) && tie.converged && tie.backend.Some? && (tie.before == tie.backend || tie.carded)
  }

  /** What a history comes to:
      what the pass in flight read when it began; every mode a pass so far has
      wanted; whether it has read a policy
      at the name; the digest its latest read found the policy intact at; the
      record's digest a re-assert of this pass was made for; the Create at
      Publishing whose credited 401 stands; the Lock whose observed 200 stands;
      the record a Lock's attributed 401 was credited under in this pass; and
      each claim as its last decisive reading left it. */
  datatype Readings = Readings(
    input: Option<AuthIn>,
    asked: set<Mode>,
    seen: bool,
    intact: Option<Digest>,
    reasserted: Option<Digest>,
    credit: Option<Tx>,
    before: Option<Tx>,
    lockCredit: Option<AuthStatus>,
    claims: Claims)

  const NoReadings: Readings := Readings(None, {}, false, None, None, None, None, None, NoClaims)

  /** Each half of a judgement moves its claim when it is decisive. */
  function ClaimsAfter(c: Claims, how: SaveKind): Claims {
    match how
    case Judgement(route, policy, keys) =>
      Claims(Claim(route, c.routeRefused), Claim(policy, c.policyUnattached), Claim(keys, c.keySourceEmpty))
    case _ => c
  }

  /** A credit stands while every status stored is that Create's, at Publishing. */
  function CreditAfter(credit: Option<Tx>, now: Option<AuthStatus>): Option<Tx> {
    if credit.Some? && TxOf(now) == credit then credit else None
  }

  /** An observation stands while every status stored is that Lock's, with it. */
  function BeforeAfter(before: Option<Tx>, now: Option<AuthStatus>): Option<Tx> {
    if before.Some? && HasTx(now, Lock) && Core(TxOf(now).value) == before.value then before else None
  }

  /** The Lock was seen served by the revision its route names, by that revision's own card. */
  function Observed(auth: Option<AuthStatus>, rt: Route, cards: seq<Card>, code: nat, body: Digest): Option<Tx> {
    var rev := BeforeRevisionFor(cards, rt, code, body);
    if HasTx(auth, Lock) && rev != 0 then Some(Seen(TxOf(auth).value, rev)) else None
  }

  /** A Create's 401, on the policy read intact at its target in this pass. */
  function CreditOf(r: Readings, auth: Option<AuthStatus>, a: Answer): Option<Tx> {
    if HasTx(auth, Create) && CleanAnswer(a) && r.intact == Some(TxOf(auth).value.targetDigest)
    then Some(TxOf(auth).value.(stage := Publishing)) else None
  }

  /** A Lock's, attributed; by a 200 only if that observation of this Lock stands. */
  predicate LockCreditable(r: Readings, auth: Option<AuthStatus>, a: Answer, tie: Attribution) {
    && HasTx(auth, Lock) && Attributed(a, tie) && r.intact == Some(TxOf(auth).value.targetDigest)
    && (tie.before.Some? ==>
          tie.before == Some(TxOf(auth).value.beforeRevision) && r.before == Some(Core(TxOf(auth).value)))
  }

  function After(r: Readings, e: Event): Readings {
    match e
    case Began(i) =>
      r.(input := Some(i), asked := r.asked + {i.desired}, seen := false, intact := None, reasserted := None,
         lockCredit := None)
    case Saved(_, now, how) =>
      r.(credit := CreditAfter(r.credit, now), before := BeforeAfter(r.before, now),
         claims := if how.AfterServed? then ClaimsOf(now) else ClaimsAfter(r.claims, how))
    case PolicySeen(found) => r.(seen := r.seen || found.Some?)
    case PolicyRead(found, target) =>
      r.(seen := r.seen || found.Some?, intact := if Intact(found, target) then Some(target) else None)
    case Reasserted(_, _, _, applied) => r.(reasserted := Some(applied))
    case BeforeAnswered(auth, rt, cards, code, body) => r.(before := Observed(auth, rt, cards, code, body))
    case Credited(auth, a) => r.(credit := CreditOf(r, auth, a))
    case LockCredited(auth, a, tie) => r.(lockCredit := if LockCreditable(r, auth, a, tie) then auth else None)
    case PolicyWritten(_, _) => r.(intact := None)
    case PolicyDeleted(_, _) => r.(seen := false, intact := None)
    case _ => r
  }

  function Front(log: seq<Event>): seq<Event>
    requires log != []
  {
    log[..|log| - 1]
  }

  function End(log: seq<Event>): Event
    requires log != []
  {
    log[|log| - 1]
  }

  function Read(log: seq<Event>): Readings {
    if log == [] then NoReadings else After(Read(Front(log)), End(log))
  }

  // ------------------------------------------------- what an entry must find

  /** A re-assert leaves the policy as recorded exactly when it is this Agent's
      own and the operator renders what is recorded, or it was that already. */
  predicate ReassertOk(found: Option<Policy>, left: Option<Policy>, rendered: Digest, applied: Digest) {
    && (Intact(left, applied) <==> Own(found) && (rendered == applied || found.value.digest == applied))
    && (left != found ==> Own(found) && left == Some(Policy(true, applied)))
  }

  /** One entry of the history, after the ones before it. */
  predicate EntryOk(r: Readings, e: Event) {
    match e
    case Saved(was, now, how) =>
      && OneWay(was, now)
      && (Enters(was, now) ==> MayEnter(r.input, now))
      && (Ended(was, now) ==> EndsWell(r.input, was, now))
      && AdoptOk(r.asked, was, now)
      && (how.AfterServed? || ClaimsOf(now) == ClaimsAfter(r.claims, how))
      && (HasTx(was, Lock) && Settled(now, ApiKey) ==>
            r.lockCredit == was && now.value.appliedDigest == TxOf(was).value.targetDigest)
      && (ApiKeyCreate(was) && Settled(now, ApiKey) ==>
            r.credit == TxOf(was) && now.value.appliedDigest == TxOf(was).value.targetDigest)
    case RouteWritten(auth, rt, created) =>
      && r.input.Some? && RouteOf(r.input.value, auth, rt)
      && (Published(rt) && ApiKeyCreate(auth) ==>
            AtPublishing(auth) && r.credit == TxOf(auth) && r.intact == Some(TxOf(auth).value.targetDigest))
      && (Published(rt) && created ==> !ApiKeyRoute(auth))
      && (Published(rt) ==> OnTarget(r.input, auth))
      && (Published(rt) && Settled(auth, ApiKey) ==> ServedRead(r, auth))
    case PolicyWritten(auth, digest) => Covers(auth) && r.input.Some? && PolicyOf(r.input.value, auth, digest)
    case PolicyDeleted(auth, published) => published ==> HasTx(auth, Lock) && !IsReCreation(auth)
    case Reasserted(found, left, rendered, applied) => ReassertOk(found, left, rendered, applied)
    case LockWaits(auth, rt, active) =>
      && HasTx(auth, Lock) && AtStage(auth, ProbingAfter)
      && (!IsReCreation(auth) ==> active != 0 && rt.backends == [active])
    case _ => true
  }

  /** The pass has read a policy at the name, and then re-asserted it for this
      record or found it intact at this record's digest. */
  predicate ServedRead(r: Readings, auth: Option<AuthStatus>) {
    && auth.Some? && r.seen
    && (r.reasserted == Some(auth.value.appliedDigest) || r.intact == Some(auth.value.appliedDigest))
  }

  predicate LogOk(log: seq<Event>) {
    forall k :: 0 <= k < |log| ==> EntryOk(Read(log[..k]), log[k])
  }

  lemma LogGrows(log: seq<Event>, e: Event)
    requires LogOk(log) && EntryOk(Read(log), e)
    ensures LogOk(log + [e]) && Read(log + [e]) == After(Read(log), e)
  {
    hide EntryOk, After;
    assert Front(log + [e]) == log;
    forall k | 0 <= k < |log + [e]|
      ensures EntryOk(Read((log + [e])[..k]), (log + [e])[k])
    {
      assert (log + [e])[..k] == log[..k];
    }
  }

  // --------------------------------------- the readings, said outright

  /** The pass in flight began at b. */
  predicate BeganAt(log: seq<Event>, b: nat) {
    b < |log| && log[b].Began? && forall k :: b < k < |log| ==> !log[k].Began?
  }

  lemma {:induction false} InputFound(log: seq<Event>) returns (b: nat)
    requires Read(log).input.Some?
    ensures BeganAt(log, b) && log[b].i == Read(log).input.value
  {
    if End(log).Began? {
      b := |log| - 1;
    } else {
      b := InputFound(Front(log));
    }
  }

  lemma {:induction false} AskedFound(log: seq<Event>, mode: Mode) returns (b: nat)
    requires mode in Read(log).asked
    ensures b < |log| && log[b].Began? && log[b].i.desired == mode
  {
    if End(log).Began? && End(log).i.desired == mode {
      b := |log| - 1;
    } else {
      b := AskedFound(Front(log), mode);
    }
  }

  /** The policy was read intact at this digest at i, and since then no pass
      began and the operator neither read it otherwise, wrote nor deleted it. */
  predicate IntactAt(log: seq<Event>, i: nat, digest: Digest) {
    && i < |log| && log[i].PolicyRead? && log[i].target == digest && Intact(log[i].found, digest)
    && forall k :: i < k < |log| ==>
         !log[k].Began? && !log[k].PolicyRead? && !log[k].PolicyWritten? && !log[k].PolicyDeleted?
  }

  lemma AfterIntact(r: Readings, e: Event)
    requires After(r, e).intact.Some?
    ensures if e.PolicyRead? then Intact(e.found, e.target) && After(r, e).intact == Some(e.target)
            else After(r, e).intact == r.intact && !e.Began? && !e.PolicyWritten? && !e.PolicyDeleted?
  {
  }

  lemma {:induction false} IntactFound(log: seq<Event>) returns (i: nat)
    requires Read(log).intact.Some?
    ensures IntactAt(log, i, Read(log).intact.value)
  {
    hide After;
    AfterIntact(Read(Front(log)), End(log));
    if End(log).PolicyRead? {
      i := |log| - 1;
    } else {
      i := IntactFound(Front(log));
    }
  }

  /** At j a clean 401 was credited to this Create, its policy read intact at its
      target in that pass, and every status stored since is that same
      transaction, at Publishing. */
  ghost predicate CreditedAt(log: seq<Event>, j: nat, tx: Tx) {
    && j < |log| && log[j].Credited? && CleanAnswer(log[j].answer)
    && HasTx(log[j].auth, Create) && Core(TxOf(log[j].auth).value) == Core(tx)
    && (exists i :: IntactAt(log[..j], i, tx.targetDigest))
    && forall k :: j < k < |log| && log[k].Saved? ==> TxOf(log[k].now) == Some(tx)
  }

  lemma {:induction false} CreditFound(log: seq<Event>) returns (j: nat)
    requires Read(log).credit.Some?
    ensures CreditedAt(log, j, Read(log).credit.value)
  {
    if End(log).Credited? {
      j := |log| - 1;
      var i := IntactFound(Front(log));
    } else {
      j := CreditFound(Front(log));
      assert Front(log)[..j] == log[..j];
    }
  }

  /** At b an anonymous request in this very Lock, before its policy, got a 200
      with the card recorded for the one revision the route named, and every
      status stored since is this Lock's, still saying so. */
  predicate ObservedAt(log: seq<Event>, b: nat, tx: Tx) {
    && b < |log| && log[b].BeforeAnswered?
    && log[b].code == 200 && SingleBackend(log[b].rt) == Some(tx.beforeRevision)
    && CardServed(log[b].cards, tx.beforeRevision, log[b].body)
    && HasTx(log[b].auth, Lock) && Seen(TxOf(log[b].auth).value, tx.beforeRevision) == Core(tx)
    && forall k :: b < k < |log| && log[k].Saved? ==>
         HasTx(log[k].now, Lock) && Core(TxOf(log[k].now).value) == Core(tx)
  }

  lemma {:induction false} ObservationFound(log: seq<Event>, tx: Tx) returns (b: nat)
    requires Read(log).before == Some(Core(tx))
    ensures ObservedAt(log, b, tx)
  {
    if End(log).BeforeAnswered? {
      b := |log| - 1;
    } else {
      b := ObservationFound(Front(log), tx);
    }
  }

  /** At j, in the pass in flight, a Lock's 401 was credited under this record:
      clean, on a converged route, its policy read intact at the Lock's target,
      and tied by a 200 observed in this Lock on the revision the route's one
      backendRef still names, or by that revision's recorded card. */
  ghost predicate AttributedAt(log: seq<Event>, j: nat, auth: Option<AuthStatus>) {
    && j < |log| && log[j].LockCredited? && log[j].auth == auth && HasTx(auth, Lock)
    && Attributed(log[j].answer, log[j].tie)
    && (exists i :: IntactAt(log[..j], i, TxOf(auth).value.targetDigest))
    && (log[j].tie.before.Some? ==>
          && log[j].tie.before == Some(TxOf(auth).value.beforeRevision)
          && exists b :: ObservedAt(log[..j], b, TxOf(auth).value))
    && forall k :: j < k < |log| ==> !log[k].Began?
  }

  lemma {:induction false} AttributionFound(log: seq<Event>) returns (j: nat)
    requires Read(log).lockCredit.Some?
    ensures AttributedAt(log, j, Read(log).lockCredit)
  {
    if End(log).LockCredited? {
      j := |log| - 1;
      var i := IntactFound(Front(log));
      var auth := End(log).auth;
      if End(log).tie.before.Some? {
        var b := ObservationFound(Front(log), TxOf(auth).value);
      }
    } else {
      j := AttributionFound(Front(log));
      assert Front(log)[..j] == log[..j];
    }
  }

  /** In this pass, at i, a read found a policy at the name. */
  predicate PresentAt(log: seq<Event>, i: nat) {
    && i < |log|
    && ((log[i].PolicySeen? && log[i].found.Some?) || (log[i].PolicyRead? && log[i].found.Some?))
    && forall k :: i < k < |log| ==> !log[k].Began? && !log[k].PolicyDeleted?
  }

  lemma {:induction false} PresenceFound(log: seq<Event>) returns (i: nat)
    requires Read(log).seen
    ensures PresentAt(log, i)
  {
    if (End(log).PolicySeen? || End(log).PolicyRead?) && End(log).found.Some? {
      i := |log| - 1;
    } else {
      i := PresenceFound(Front(log));
    }
  }

  predicate ReassertedAt(log: seq<Event>, j: nat, applied: Digest) {
    && j < |log| && log[j].Reasserted? && log[j].applied == applied
    && forall k :: j < k < |log| ==> !log[k].Began?
  }

  lemma {:induction false} ReassertFound(log: seq<Event>) returns (j: nat)
    requires Read(log).reasserted.Some?
    ensures ReassertedAt(log, j, Read(log).reasserted.value)
  {
    if End(log).Reasserted? {
      j := |log| - 1;
    } else {
      j := ReassertFound(Front(log));
    }
  }
}
