/**
 runCreate and runLock as the reconciler runs them: a pass that updates its
 working status.auth, the stored one, the route and the policy in place, turn by
 turn, under a bound of twelve. Proved against the machine's own turns.
 */
module AuthPass {
  import opened Types
  import opened SendPredicates
  import opened AuthMachine
  import opened AuthSettle

  /** How a turn ends: round again, out with or without an error, stopped by a
      lost response, on to the marker of a Lock that landed, or over to runCreate. */
  datatype Ending = GoesRound | Ends(err: bool) | Stops | Marks | Recreates

  class Pass {
    const i: AuthIn
    const judged: bool
    const claims: Claims
    const emptyStart: bool
    var stored: Option<AuthStatus>
    var auth: Option<AuthStatus>
    var served: bool
    var route: Option<Route>
    var policy: Option<Policy>
    ghost var log: seq<Event>

    constructor (w: World, i: AuthIn)
      ensures W() == w && L() == Local(i, w.auth, JudgesServed(w.auth), ClaimsOf(w.auth), false)
    {
      this.i, judged, claims, emptyStart := i, JudgesServed(w.auth), ClaimsOf(w.auth), w.emptyStart;
      stored, auth, served, route, policy, log := w.auth, w.auth, false, w.route, w.policy, w.log;
    }

    ghost function W(): World
      reads this
    {
      World(stored, route, policy, log, emptyStart)
    }

    ghost function L(): Local
      reads this
    {
      Local(i, auth, judged, claims, served)
    }

    ghost function CreateAt(end: Ending): AuthSys
      reads this
    {
      AuthSys(W(), match end
                   case GoesRound => CreateTurn(L())
                   case Ends(err) => Closing(L(), err)
                   case _ => Idle)
    }

    ghost function LockAt(end: Ending, rt: Route): AuthSys
      reads this
    {
      AuthSys(W(), match end
                   case GoesRound => LockTurn(L(), rt)
                   case Ends(err) => Closing(L(), err)
                   case Stops => Idle
                   case Marks => LockMarker(L())
                   case Recreates => Continue(L(), ToCreate))
    }

    /** A transaction of this kind, whose recorded target this operator renders. */
    predicate Runs(kind: Kind)
      reads this
    {
      HasTx(auth, kind) && Renders(TxOf(auth).value, i)
    }

    // -------------------------------------------------- the API operations

    method EnsureServingRoute(pub: Publication, op: RouteOp) returns (r: Ensured)
      modifies `route, `log
      ensures (W(), r) == Routed(old(W()), pub, i.active, op)
    {
      var want := RouteFor(pub, i.active);
      var was := route;
      match op {
        case Skip => r := Got(want, false);
        case RouteFails => r := Fails;
        case Missing => r := if pub == Publish(ApiKey) then Gone else Fails;
        case Put =>
          if route.None? && pub == Publish(ApiKey) {
            r := Gone;
          } else {
            r := Got(want, route.None?);
            route := Some(want);
          }
      }
      if route != was {
        log := log + [RouteWritten(stored, want, was.None?)];
      }
    }

    method EnsureAuthPolicy(digest: Digest, ok: bool) returns (done: bool)
      modifies `policy, `log
      ensures done <==> ok && Writable(old(policy))
      ensures W() == if done then WritePolicy(old(W()), digest) else old(W())
    {
      done := ok && (policy.None? || policy.value.own);
      if done && policy != Some(Policy(true, digest)) {
        policy := Some(Policy(true, digest));
        log := log + [PolicyWritten(stored, digest)];
      }
    }

    /** persistStatus: what the pass holds is stored, ahead of what it authorizes. */
    method Persist(commit: Commit, next: Ending) returns (end: Ending)
      modifies `stored, `log
      ensures W() == if commit == CommitFails then old(W()) else Save(old(W()), L(), Plain)
      ensures end == match commit case CommitAck => next case CommitLost => Stops case CommitFails => Ends(true)
      ensures next == GoesRound && Runs(Create) ==> CreateAt(end) == SaveStep(old(W()), L(), ToCreate, commit)
      ensures next == Ends(false) ==> CreateAt(end) == SaveStep(old(W()), L(), ToWait, commit)
      ensures forall rt :: LockAt(end, rt) == match next
                case GoesRound => SaveStep(old(W()), L(), ToLockWith(rt), commit)
                case Ends(err) => if err then LockAt(end, rt) else SaveStep(old(W()), L(), ToWait, commit)
                case Marks => SaveStep(old(W()), L(), ToMarker, commit)
                case Recreates => SaveStep(old(W()), L(), ToCreate, commit)
                case Stops => LockAt(end, rt)
    {
      if commit == CommitFails {
        return Ends(true);
      }
      log := log + [Saved(stored, auth, if served then AfterServed else Plain)];
      stored := auth;
      end := if commit == CommitAck then next else Stops;
    }

    method SetStage(stage: Stage)
      requires auth.Some? && auth.value.tx.Some?
      modifies `auth
      ensures L() == ToStage(old(L()), TxOf(old(auth)).value, stage)
    {
      auth := Some(auth.value.(tx := Some(auth.value.tx.value.(stage := stage))));
    }

    // ------------------------------------------------------------ runCreate

    method CreatePrepare(x: Answers) returns (end: Ending)
      requires Runs(Create) && TxOf(auth).value.stage == PreparingRoute
      modifies this
      ensures CreateAt(end) == Turn(old(CreateAt(GoesRound)), x)
      ensures end.GoesRound? ==> Runs(Create)
    {
      hide Turn, Onward, Advance, SaveStep, Save;
      CreateTurnIs(W(), L(), x);
      var r := EnsureServingRoute(PublicationFor(auth), x.op);
      if !r.Got? {
        OnwardEnd(W(), L(), true, x);
        return Ends(true);
      }
      auth := Some(auth.value.(tx := Some(auth.value.tx.value.(stage := ApplyingPolicies, written := true))));
      OnwardSave(W(), L(), ToCreate, x);
      end := Persist(x.commit, GoesRound);
    }

    method CreateApply(x: Answers) returns (end: Ending)
      requires Runs(Create) && TxOf(auth).value.stage == ApplyingPolicies
      modifies this
      ensures CreateAt(end) == Turn(old(CreateAt(GoesRound)), x)
      ensures end.GoesRound? ==> Runs(Create)
    {
      hide Turn, Onward, Advance, SaveStep, Save;
      CreateTurnIs(W(), L(), x);
      if i.foreignOwn {
        OnwardEnd(W(), L(), false, x);
        return Ends(false);
      }
      var done := EnsureAuthPolicy(auth.value.tx.value.targetDigest, x.ok);
      if !done {
        OnwardEnd(W(), L(), true, x);
        return Ends(true);
      }
      SetStage(Converging);
      OnwardSave(W(), L(), ToCreate, x);
      end := Persist(x.commit, GoesRound);
    }

    /** Converging and ProbingAfter, from the read of the policy on. */
    method CreateRead(created: bool, x: Answers) returns (end: Ending)
      requires Runs(Create)
      modifies this
      ensures var target := TxOf(old(auth)).value.targetDigest;
              CreateAt(end) ==
              Onward(AfterPolicyRead(Log(old(W()), PolicyRead(old(policy), target)), old(L()), created,
                                     Intact(old(policy), target), x), x)
      ensures end.GoesRound? ==> Runs(Create)
    {
      hide Onward, Advance, SaveStep, Save, Turn;
      var tx := auth.value.tx.value;
      var intact := policy == Some(Policy(true, tx.targetDigest));
      log := log + [PolicyRead(policy, tx.targetDigest)];
      if created || !intact {
        SetStage(ApplyingPolicies);
        OnwardSave(W(), L(), ToCreate, x);
        end := Persist(x.commit, GoesRound);
      } else if x.nack {
        if tx.stage == Converging {
          OnwardEnd(W(), L(), false, x);
          return Ends(false);
        }
        SetStage(Converging);
        OnwardSave(W(), L(), ToWait, x);
        end := Persist(x.commit, Ends(false));
      } else if tx.stage == Converging {
        if !x.converged {
          OnwardEnd(W(), L(), false, x);
          return Ends(false);
        }
        SetStage(ProbingAfter);
        OnwardSave(W(), L(), ToCreate, x);
        end := Persist(x.commit, GoesRound);
      } else if i.foreign {
        OnwardEnd(W(), L(), false, x);
        end := Ends(false);
      } else if x.code == 401 && x.cleanBefore && x.cleanAfter {
        log := log + [Credited(stored, Answer(x.nack, i.foreign, x.cleanBefore, x.code, x.cleanAfter))];
        SetStage(Publishing);
        OnwardSave(W(), L(), ToCreate, x);
        end := Persist(x.commit, GoesRound);
      } else {
        OnwardSave(W(), L(), ToWait, x);
        end := Persist(x.commit, Ends(false));
      }
    }

    method CreateConverge(x: Answers) returns (end: Ending)
      requires Runs(Create) && (TxOf(auth).value.stage == Converging || TxOf(auth).value.stage == ProbingAfter)
      modifies this
      ensures CreateAt(end) == Turn(old(CreateAt(GoesRound)), x)
      ensures end.GoesRound? ==> Runs(Create)
    {
      hide Turn, Onward, Advance, SaveStep, Save;
      CreateTurnIs(W(), L(), x);
      var r := EnsureServingRoute(PublicationFor(auth), x.op);
      if !r.Got? || !x.ok {
        OnwardEnd(W(), L(), true, x);
        return Ends(true);
      }
      end := CreateRead(r.created, x);
    }

    /** Publishing, once the policy is known to be intact. */
    method PublishTurn(x: Answers) returns (end: Ending)
      requires Runs(Create)
      modifies this
      ensures CreateAt(end) == Onward(PublishStep(old(W()), old(L()), x), x)
      ensures end.GoesRound? ==> Runs(Create)
    {
      hide Onward, Advance, SaveStep, Save, Turn;
      var tx := auth.value.tx.value;
      if i.active == 0 || i.foreign {
        OnwardEnd(W(), L(), false, x);
        return Ends(false);
      }
      if x.seen.None? && tx.targetMode == ApiKey {
        SetStage(PreparingRoute);
        OnwardSave(W(), L(), ToCreate, x);
        end := Persist(x.commit, GoesRound);
        return;
      }
      var r := EnsureServingRoute(PublicationFor(auth), x.op);
      match r {
        case Gone =>
          SetStage(PreparingRoute);
          OnwardSave(W(), L(), ToCreate, x);
          end := Persist(x.commit, GoesRound);
        case Fails =>
          OnwardEnd(W(), L(), true, x);
          end := Ends(true);
        case Got(_, _) =>
          if !x.converged {
            OnwardEnd(W(), L(), false, x);
            return Ends(false);
          }
          auth, served := Some(ServedRecord(tx)), true;
          OnwardSave(W(), L(), ToWait, x);
          end := Persist(x.commit, Ends(false));
      }
    }

    method CreatePublish(x: Answers) returns (end: Ending)
      requires Runs(Create) && TxOf(auth).value.stage == Publishing
      modifies this
      ensures CreateAt(end) == Turn(old(CreateAt(GoesRound)), x)
      ensures end.GoesRound? ==> Runs(Create)
    {
      hide Turn, Onward, Advance, SaveStep, Save;
      CreateTurnIs(W(), L(), x);
      var tx := auth.value.tx.value;
      if tx.targetMode == ApiKey {
        if !x.ok {
          OnwardEnd(W(), L(), true, x);
          return Ends(true);
        }
        var intact := policy == Some(Policy(true, tx.targetDigest));
        log := log + [PolicyRead(policy, tx.targetDigest)];
        if !intact {
          SetStage(PreparingRoute);
          OnwardSave(W(), L(), ToCreate, x);
          end := Persist(x.commit, GoesRound);
          return;
        }
      }
      end := PublishTurn(x);
    }

    /** runCreate's loop, and with quiet objects it settles: `end` is never the
        twelfth turn's "did not settle". */
    method RunCreate(answers: nat -> Answers) returns (end: Ending, turns: nat)
      requires Runs(Create)
      modifies this
      ensures Outcome(CreateAt(end), turns) == Loop(old(CreateAt(GoesRound)), false, answers, 0)
      ensures AllQuiet(answers) && old(Heads(CreateAt(GoesRound), false)) ==> !end.GoesRound? && turns <= 6
    {
      hide Turn, Onward, Advance;
      end, turns := GoesRound, 0;
      while end.GoesRound? && turns < MAX_TURNS
        invariant turns <= MAX_TURNS
        invariant end.GoesRound? ==> Runs(Create)
        invariant Loop(CreateAt(end), false, answers, turns) == Loop(old(CreateAt(GoesRound)), false, answers, 0)
        decreases MAX_TURNS - turns
      {
        var x := Sees(answers(turns), route);
        match auth.value.tx.value.stage {
          case PreparingRoute => end := CreatePrepare(x);
          case ApplyingPolicies => end := CreateApply(x);
          case Converging => end := CreateConverge(x);
          case ProbingAfter => end := CreateConverge(x);
          case Publishing => end := CreatePublish(x);
          case _ =>
            UnknownStage(W(), L(), RouteFor(Prepared, 0), x);
            end := Ends(true);
        }
        turns := turns + 1;
      }
      if AllQuiet(answers) && old(Heads(CreateAt(GoesRound), false)) {
        StageLoopsSettle(old(CreateAt(GoesRound)), false, answers);
      }
    }

    // -------------------------------------------------------------- runLock

    method LockProbeBefore(rt: Route, x: Answers) returns (end: Ending)
      requires Runs(Lock) && TxOf(auth).value.stage == ProbingBefore
      modifies this
      ensures LockAt(end, rt) == Turn(old(LockAt(GoesRound, rt)), x)
      ensures end.GoesRound? ==> Runs(Lock)
    {
      hide Turn, Onward, Advance, SaveStep, Save, LockProbeStep, LockRepointStep;
      LockTurnIs(W(), L(), rt, x);
      var tx := auth.value.tx.value;
      if x.ok {
        log := log + [BeforeAnswered(stored, rt, i.cards, x.code, x.body)];
        var rev := BeforeRevisionFor(i.cards, rt, x.code, x.body);
        if rev != 0 {
          tx := tx.(beforeObserved := true, beforeRevision := rev);
        }
      }
      auth := Some(auth.value.(tx := Some(tx.(stage := ApplyingPolicies, written := true))));
      OnwardSave(W(), L(), ToLockWith(rt), x);
      end := Persist(x.commit, GoesRound);
    }

    method LockApply(rt: Route, x: Answers) returns (end: Ending)
      requires Runs(Lock) && TxOf(auth).value.stage == ApplyingPolicies
      modifies this
      ensures LockAt(end, rt) == Turn(old(LockAt(GoesRound, rt)), x)
      ensures end.GoesRound? ==> Runs(Lock)
    {
      hide Turn, Onward, Advance, SaveStep, Save;
      LockTurnIs(W(), L(), rt, x);
      if i.foreignOwn {
        OnwardEnd(W(), L(), false, x);
        return Ends(false);
      }
      var done := EnsureAuthPolicy(auth.value.tx.value.targetDigest, x.ok);
      if !done {
        OnwardEnd(W(), L(), true, x);
        return Ends(true);
      }
      SetStage(Converging);
      OnwardSave(W(), L(), ToLockWith(rt), x);
      end := Persist(x.commit, GoesRound);
    }

    /** The probe: a 401 that can be attributed, between two clean reads, ends the Lock. */
    method Probe(rt: Route, nacked: bool, clean: bool, x: Answers) returns (end: Ending)
      requires Runs(Lock)
      modifies this
      ensures forall rt0 :: LockAt(end, rt0) == Onward(LockProbeStep(old(W()), old(L()), rt, nacked, clean, x), x)
      ensures !end.GoesRound?
    {
      hide Turn, Onward, Advance, SaveStep, Save;
      var tx, carded := auth.value.tx.value, CardAttributes(i.cards, rt);
      if x.converged && x.code == 401 && (tx.beforeObserved || carded) && clean && x.cleanAfter {
        log := log + [LockCredited(stored, Answer(nacked, i.foreign, clean, x.code, x.cleanAfter),
                                   Attribution(x.converged, if tx.beforeObserved then Some(tx.beforeRevision) else None,
                                               SingleBackend(rt), carded))];
        var recreation := IsReCreation(auth);
        auth, served := Some(ServedRecord(tx)), true;
        OnwardSave(W(), L(), if recreation then ToWait else ToMarker, x);
        end := Persist(x.commit, if recreation then Ends(false) else Marks);
      } else {
        log := log + [LockWaits(auth, rt, i.active)];
        if !x.converged {
          OnwardEnd(W(), L(), false, x);
          return Ends(false);
        }
        OnwardSave(W(), L(), ToWait, x);
        end := Persist(x.commit, Ends(false));
      }
    }

    /** The re-point of a missing-policy Lock: its route on a carded active revision, and then the probe. */
    method RepointAndProbe(rt: Route, x: Answers) returns (end: Ending)
      requires Runs(Lock)
      modifies this
      ensures var s := LockRepointStep(old(W()), old(L()), x.nack, x.cleanBefore, x);
              forall rt0 :: LockAt(end, rt0) == Onward(Probed(s, x), x)
      ensures !end.GoesRound?
    {
      hide Turn, Onward, Advance, SaveStep, Save, LockProbeStep;
      var r := EnsureServingRoute(PublicationFor(auth), x.op);
      match r {
        case Gone =>
          var a := auth.value;
          auth := Some(a.(tx := Some(NewTx(Create, a.mode, a.appliedDigest, PreparingRoute, false, i.deadline))));
          OnwardSave(W(), L(), ToCreate, x);
          end := Persist(x.commit, Recreates);
        case Fails =>
          OnwardEnd(W(), L(), true, x);
          end := Ends(true);
        case Got(rt1, _) => end := Probe(rt1, x.nack, x.cleanBefore, x);
      }
    }

    /** Converging and ProbingAfter, once the policy is read. */
    method LockRead(rt: Route, intact: bool, x: Answers) returns (end: Ending)
      requires Runs(Lock)
      modifies this
      ensures var s := AfterLockRead(old(W()), old(L()), TxOf(old(auth)).value, rt, intact, x);
              LockAt(end, rt) == Onward(Probed(Repointed(s, x), x), x)
      ensures end.GoesRound? ==> Runs(Lock)
    {
      hide Turn, Onward, Advance, SaveStep, Save, LockProbeStep, LockRepointStep;
      var tx := auth.value.tx.value;
      if !intact {
        SetStage(ApplyingPolicies);
        OnwardSave(W(), L(), ToLockWith(rt), x);
        end := Persist(x.commit, GoesRound);
      } else if x.nack && tx.stage != Converging {
        SetStage(Converging);
        OnwardSave(W(), L(), ToWait, x);
        end := Persist(x.commit, Ends(false));
      } else if x.nack || (tx.stage == Converging && !x.converged) {
        OnwardEnd(W(), L(), false, x);
        end := Ends(false);
      } else if tx.stage == Converging {
        SetStage(ProbingAfter);
        OnwardSave(W(), L(), ToLockWith(rt), x);
        end := Persist(x.commit, GoesRound);
      } else if i.foreign {
        log := log + [LockWaits(auth, rt, i.active)];
        OnwardEnd(W(), L(), false, x);
        end := Ends(false);
      } else if IsReCreation(auth) && CardedRevision(i.cards, i.active) {
        end := RepointAndProbe(rt, x);
      } else {
        end := Probe(rt, x.nack, x.cleanBefore, x);
      }
    }

    method LockConverge(rt: Route, x: Answers) returns (end: Ending)
      requires Runs(Lock) && (TxOf(auth).value.stage == Converging || TxOf(auth).value.stage == ProbingAfter)
      modifies this
      ensures LockAt(end, rt) == Turn(old(LockAt(GoesRound, rt)), x)
      ensures end.GoesRound? ==> Runs(Lock)
    {
      hide Turn, Onward, Advance, SaveStep, Save, LockProbeStep, LockRepointStep, AfterLockRead;
      LockTurnIs(W(), L(), rt, x);
      if !x.ok {
        OnwardEnd(W(), L(), true, x);
        return Ends(true);
      }
      var intact := policy == Some(Policy(true, auth.value.tx.value.targetDigest));
      log := log + [PolicyRead(policy, auth.value.tx.value.targetDigest)];
      end := LockRead(rt, intact, x);
    }

    /** runLock's loop, on the route its entry read or kept published. */
    method RunLock(rt: Route, answers: nat -> Answers) returns (end: Ending, turns: nat)
      requires Runs(Lock)
      modifies this
      ensures Outcome(LockAt(end, rt), turns) == Loop(old(LockAt(GoesRound, rt)), true, answers, 0)
      ensures AllQuiet(answers) ==> !end.GoesRound? && turns <= 6
    {
      hide Turn, Onward, Advance;
      end, turns := GoesRound, 0;
      while end.GoesRound? && turns < MAX_TURNS
        invariant turns <= MAX_TURNS
        invariant end.GoesRound? ==> Runs(Lock)
        invariant Loop(LockAt(end, rt), true, answers, turns) == Loop(old(LockAt(GoesRound, rt)), true, answers, 0)
        decreases MAX_TURNS - turns
      {
        var x := Sees(answers(turns), route);
        match auth.value.tx.value.stage {
          case ProbingBefore => end := LockProbeBefore(rt, x);
          case ApplyingPolicies => end := LockApply(rt, x);
          case Converging => end := LockConverge(rt, x);
          case ProbingAfter => end := LockConverge(rt, x);
          case _ =>
            UnknownStage(W(), L(), rt, x);
            end := Ends(true);
        }
        turns := turns + 1;
      }
      if AllQuiet(answers) {
        StageLoopsSettle(old(LockAt(GoesRound, rt)), true, answers);
      }
    }
  }
}
