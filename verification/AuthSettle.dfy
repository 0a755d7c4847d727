/**
 The bounded loops of runCreate and runLock, in place: each turn updates the
 transaction, the route and the policy as it goes. When only the pass's own
 writes change the objects, neither loop comes near its bound of twelve turns.
 */
module AuthSettle {
  import opened Types
  import opened AuthMachine

  const MAX_TURNS: nat := 12

  /** Only the pass's own writes change objects: reads are current, and a write
      either keeps or is reported failed. Everything else may answer anything. */
  predicate Quiet(x: Answers, route: Option<Route>) {
    (x.op == Put || x.op == RouteFails) && x.seen == route && x.commit != CommitLost
  }

  /** The pass is between the operations of one turn. */
  predicate MidTurn(pc: Pc) {
    pc.CreatePolicy? || pc.PublishRoute? || pc.LockRepoint? || pc.LockProbe? || pc.Saving?
  }

  function Onward(s: AuthSys, x: Answers): AuthSys {
    if MidTurn(s.pc) then Advance(s, x) else s
  }

  /** One turn of a loop: its operations one after another. */
  function Turn(s: AuthSys, x: Answers): AuthSys {
    Onward(Onward(Onward(Advance(s, x), x), x), x)
  }

  /** The head of runLock's loop, or of runCreate's. */
  predicate AtHead(pc: Pc, lock: bool) {
    if lock then pc.LockTurn? else pc.CreateTurn?
  }

  /** How a loop comes out: the state it leaves, and the turns it took. At the
      bound it gives up: "did not settle". */
  datatype Outcome = Outcome(s: AuthSys, turns: nat)

  /** The answers of turn n, with the current route as what a read sees. */
  function Sees(x: Answers, route: Option<Route>): Answers { x.(seen := route) }

  function Loop(s: AuthSys, lock: bool, answers: nat -> Answers, turns: nat): Outcome
    requires turns <= MAX_TURNS
    decreases MAX_TURNS - turns
  {
    if turns == MAX_TURNS || !AtHead(s.pc, lock) then Outcome(s, turns)
    else Loop(Turn(s, Sees(answers(turns), s.w.route)), lock, answers, turns + 1)
  }

  // -------------------------------------------------- the measure of a loop

  /** What the loop still has to do, from the stage and from whether the route
      is there and the policy intact. */
  function TurnsLeft(w: World, l: Local, lock: bool): nat {
    if TxOf(l.auth).None? then 0
    else
      var tx := TxOf(l.auth).value;
      var good := Intact(w.policy, tx.targetDigest);
      if lock then LockTurnsLeft(tx, good) else CreateTurnsLeft(tx, w.route.Some?, good)
  }

  function CreateTurnsLeft(tx: Tx, up: bool, good: bool): nat {
    match tx.stage
    case PreparingRoute => 5
    case ApplyingPolicies => if up then 4 else 6
    case Converging => if up && good then 3 else 5
    case ProbingAfter => if up && good then 2 else 5
    case Publishing => if tx.targetMode == NoAuth || (up && good) then 1 else 6
    case _ => 1
  }

  function LockTurnsLeft(tx: Tx, good: bool): nat {
    match tx.stage
    case ProbingBefore => 4
    case ApplyingPolicies => 3
    case Converging => if good then 2 else 4
    case ProbingAfter => if good then 1 else 4
    case _ => 1
  }

  /** A loop at its head, acting on a transaction of its own kind. */
  predicate Heads(s: AuthSys, lock: bool) {
    && AtHead(s.pc, lock)
    && HasTx(s.pc.l.auth, if lock then Lock else Create)
    && var tx := TxOf(s.pc.l.auth).value;
       !lock ==> tx.targetMode == ApiKey || (tx.targetMode == NoAuth && tx.stage == Publishing)
  }

  predicate Ahead(t: AuthSys, lock: bool, left: nat) {
    AtHead(t.pc, lock) ==> Heads(t, lock) && TurnsLeft(t.w, t.pc.l, lock) < left
  }

  /** Where a turn's operations lead: out of the loop, or to a save from which
      it goes round nearer its end. */
  predicate Leads(s: AuthSys, lock: bool, left: nat) {
    || s.pc.Closing?
    || (s.pc.Saving? && (s.pc.next == ToWait || s.pc.next == ToMarker || (lock && s.pc.next == ToCreate)))
    || (s.pc.Saving? && s.pc.next == ToCreate && Ahead(AuthSys(s.w, CreateTurn(s.pc.l)), lock, left))
    || (s.pc.Saving? && s.pc.next.ToLockWith? && Ahead(AuthSys(s.w, LockTurn(s.pc.l, s.pc.next.rt)), lock, left))
  }

  lemma LeadsAhead(s: AuthSys, x: Answers, lock: bool, left: nat)
    requires Leads(s, lock, left)
    ensures Ahead(Onward(s, x), lock, left) && !MidTurn(Onward(s, x).pc)
  {
  }

  lemma TurnLeads(s: AuthSys, x: Answers, mid: AuthSys, lock: bool, left: nat)
    requires Leads(mid, lock, left)
    requires mid == Advance(s, x) || mid == Onward(Advance(s, x), x) || mid == Onward(Onward(Advance(s, x), x), x)
    ensures Ahead(Turn(s, x), lock, left)
  {
    hide Advance, Ahead, Leads;
    LeadsAhead(mid, x, lock, left);
    assert MidTurn(mid.pc) || Onward(mid, x) == mid;
  }

  lemma CreateReadLeads(w: World, l: Local, created: bool, intact: bool, x: Answers, left: nat)
    requires HasTx(l.auth, Create) && TxOf(l.auth).value.targetMode == ApiKey && w.route.Some?
    requires TxOf(l.auth).value.stage == Converging || TxOf(l.auth).value.stage == ProbingAfter
    requires intact == Intact(w.policy, TxOf(l.auth).value.targetDigest)
    requires left == if created || !intact then 5 else if TxOf(l.auth).value.stage == Converging then 3 else 2
    ensures Leads(AfterPolicyRead(w, l, created, intact, x), false, left)
  {
  }

  lemma ConvergingFalls(s: AuthSys, x: Answers)
    requires Heads(s, false) && Quiet(x, s.w.route) && TxOf(s.pc.l.auth).value.targetMode == ApiKey
    requires TxOf(s.pc.l.auth).value.stage == Converging || TxOf(s.pc.l.auth).value.stage == ProbingAfter
    ensures Ahead(Turn(s, x), false, TurnsLeft(s.w, s.pc.l, false))
  {
    hide Turn, Leads, Ahead, AfterPolicyRead;
    var l, s1, left := s.pc.l, Advance(s, x), TurnsLeft(s.w, s.pc.l, false);
    assert s1.pc.Closing? || s1.pc == CreatePolicy(l, s.w.route.None?);
    if s1.pc.Closing? {
      EndLeads(s1, false, left);
      TurnLeads(s, x, s1, false, left);
    } else {
      var s2 := Onward(s1, x);
      if !x.ok {
        EndLeads(s2, false, left);
      } else {
        var target := TxOf(l.auth).value.targetDigest;
        var w2, intact := Log(s1.w, PolicyRead(s1.w.policy, target)), Intact(s1.w.policy, target);
        assert s2 == AfterPolicyRead(w2, l, s.w.route.None?, intact, x);
        CreateReadLeads(w2, l, s.w.route.None?, intact, x, left);
      }
      TurnLeads(s, x, s2, false, left);
    }
  }

  lemma EndLeads(s: AuthSys, lock: bool, left: nat)
    requires s.pc.Closing?
    ensures Leads(s, lock, left)
  {
  }

  lemma PreparingFalls(s: AuthSys, x: Answers)
    requires Heads(s, false) && Quiet(x, s.w.route) && TxOf(s.pc.l.auth).value.targetMode == ApiKey
    requires TxOf(s.pc.l.auth).value.stage == PreparingRoute || TxOf(s.pc.l.auth).value.stage == ApplyingPolicies
    ensures Ahead(Turn(s, x), false, TurnsLeft(s.w, s.pc.l, false))
  {
    assert Leads(Advance(s, x), false, TurnsLeft(s.w, s.pc.l, false)) by { hide Turn; }
    TurnLeads(s, x, Advance(s, x), false, TurnsLeft(s.w, s.pc.l, false));
  }

  lemma PublishLeads(w: World, l: Local, x: Answers, left: nat)
    requires HasTx(l.auth, Create) && TxOf(l.auth).value.stage == Publishing && Quiet(x, w.route)
    requires TxOf(l.auth).value.targetMode == ApiKey || TxOf(l.auth).value.targetMode == NoAuth
    requires left >= 1 && (w.route.None? && TxOf(l.auth).value.targetMode == ApiKey ==> left == 6)
    ensures Leads(PublishStep(w, l, x), false, left)
  {
  }

  lemma PublishingFalls(s: AuthSys, x: Answers)
    requires Heads(s, false) && Quiet(x, s.w.route) && TxOf(s.pc.l.auth).value.stage == Publishing
    ensures Ahead(Turn(s, x), false, TurnsLeft(s.w, s.pc.l, false))
  {
    hide Turn, PublishStep;
    var l, s1, left := s.pc.l, Advance(s, x), TurnsLeft(s.w, s.pc.l, false);
    if s1.pc == PublishRoute(l) {
      PublishLeads(s1.w, l, x, left);
      TurnLeads(s, x, Onward(s1, x), false, left);
    } else {
      assert Leads(s1, false, left);
      TurnLeads(s, x, s1, false, left);
    }
  }

  /** A Create's turn ends the loop or brings it nearer its end. */
  lemma CreateTurnFalls(s: AuthSys, x: Answers)
    requires Heads(s, false) && Quiet(x, s.w.route)
    ensures Ahead(Turn(s, x), false, TurnsLeft(s.w, s.pc.l, false))
  {
    hide Turn;
    var tx := TxOf(s.pc.l.auth).value;
    if tx.stage == Publishing {
      PublishingFalls(s, x);
    } else {
      OtherFalls(s, x);
    }
  }

  lemma OtherFalls(s: AuthSys, x: Answers)
    requires Heads(s, false) && Quiet(x, s.w.route) && TxOf(s.pc.l.auth).value.stage != Publishing
    requires TxOf(s.pc.l.auth).value.targetMode == ApiKey
    ensures Ahead(Turn(s, x), false, TurnsLeft(s.w, s.pc.l, false))
  {
    hide Turn;
    var stage := TxOf(s.pc.l.auth).value.stage;
    if stage == PreparingRoute || stage == ApplyingPolicies {
      PreparingFalls(s, x);
    } else if stage == Converging || stage == ProbingAfter {
      ConvergingFalls(s, x);
    } else {
      assert Advance(s, x).pc.Closing?;
      EndLeads(Advance(s, x), false, TurnsLeft(s.w, s.pc.l, false));
      TurnLeads(s, x, Advance(s, x), false, TurnsLeft(s.w, s.pc.l, false));
    }
  }

  // ------------------------------------------------------------- runLock

  lemma ProbeLeads(s: AuthSys, x: Answers, left: nat)
    requires s.pc.LockProbe? || s.pc.LockRepoint?
    ensures s.pc.LockProbe? ==> Leads(Advance(s, x), true, left)
    ensures s.pc.LockRepoint? ==> Leads(Advance(s, x), true, left) || Advance(s, x).pc.LockProbe?
  {
  }

  lemma LockReadLeads(w: World, l: Local, rt: Route, intact: bool, x: Answers, left: nat)
    requires HasTx(l.auth, Lock)
    requires TxOf(l.auth).value.stage == Converging || TxOf(l.auth).value.stage == ProbingAfter
    requires intact == Intact(w.policy, TxOf(l.auth).value.targetDigest)
    requires left == if !intact then 4 else if TxOf(l.auth).value.stage == Converging then 2 else 1
    ensures var s := AfterLockRead(w, l, TxOf(l.auth).value, rt, intact, x);
            Leads(s, true, left) || s.pc.LockRepoint? || s.pc.LockProbe?
  {
  }

  lemma LockReadFalls(s: AuthSys, x: Answers)
    requires Heads(s, true)
    requires TxOf(s.pc.l.auth).value.stage == Converging || TxOf(s.pc.l.auth).value.stage == ProbingAfter
    ensures Ahead(Turn(s, x), true, TurnsLeft(s.w, s.pc.l, true))
  {
    hide Turn, Leads, Ahead, AfterLockRead;
    var l, s1, left := s.pc.l, Advance(s, x), TurnsLeft(s.w, s.pc.l, true);
    if !x.ok {
      EndLeads(s1, true, left);
      TurnLeads(s, x, s1, true, left);
    } else {
      var target := TxOf(l.auth).value.targetDigest;
      var w1, intact := Log(s.w, PolicyRead(s.w.policy, target)), Intact(s.w.policy, target);
      assert s1 == AfterLockRead(w1, l, TxOf(l.auth).value, s.pc.rt, intact, x);
      LockReadLeads(w1, l, s.pc.rt, intact, x, left);
      ProbingFalls(s, x, s1, left);
    }
  }

  lemma ProbingFalls(s: AuthSys, x: Answers, s1: AuthSys, left: nat)
    requires s1 == Advance(s, x)
    requires Leads(s1, true, left) || s1.pc.LockRepoint? || s1.pc.LockProbe?
    ensures Ahead(Turn(s, x), true, left)
  {
    hide Turn, Leads, Ahead, Advance;
    if Leads(s1, true, left) {
      TurnLeads(s, x, s1, true, left);
    } else {
      var s2 := Onward(s1, x);
      ProbeLeads(s1, x, left);
      if Leads(s2, true, left) {
        TurnLeads(s, x, s2, true, left);
      } else {
        ProbeLeads(s2, x, left);
        TurnLeads(s, x, Onward(s2, x), true, left);
      }
    }
  }

  /** A Lock's turn ends the loop or brings it nearer its end. */
  lemma LockTurnFalls(s: AuthSys, x: Answers)
    requires Heads(s, true)
    ensures Ahead(Turn(s, x), true, TurnsLeft(s.w, s.pc.l, true))
  {
    var stage := TxOf(s.pc.l.auth).value.stage;
    if stage == Converging || stage == ProbingAfter {
      LockReadFalls(s, x);
    } else {
      assert Leads(Advance(s, x), true, TurnsLeft(s.w, s.pc.l, true)) by { hide Turn; }
      TurnLeads(s, x, Advance(s, x), true, TurnsLeft(s.w, s.pc.l, true));
    }
  }

  // -------------------------------------------------------- both loops

  ghost predicate AllQuiet(answers: nat -> Answers) {
    forall n: nat :: (answers(n).op == Put || answers(n).op == RouteFails) && answers(n).commit != CommitLost
  }

  lemma {:induction false} LoopSettles(s: AuthSys, lock: bool, answers: nat -> Answers, turns: nat)
    requires AllQuiet(answers) && Ahead(s, lock, 7)
    requires AtHead(s.pc, lock) ==> turns + TurnsLeft(s.w, s.pc.l, lock) <= 6
    requires turns <= 6
    ensures Loop(s, lock, answers, turns).turns <= 6
    ensures !AtHead(Loop(s, lock, answers, turns).s.pc, lock)
    decreases MAX_TURNS - turns
  {
    hide Turn, TurnsLeft;
    if AtHead(s.pc, lock) {
      var x := Sees(answers(turns), s.w.route);
      if lock { LockTurnFalls(s, x); } else { CreateTurnFalls(s, x); }
      TurnsPositive(s, lock);
      LoopSettles(Turn(s, x), lock, answers, turns + 1);
    }
  }

  lemma TurnsPositive(s: AuthSys, lock: bool)
    requires Heads(s, lock)
    ensures 1 <= TurnsLeft(s.w, s.pc.l, lock) <= 6
  {
  }

  /** The stage loops settle: from any stage, when only the pass's own writes
      change the objects, each loop reaches Served, a wait or an error in at
      most six of its twelve turns. So "did not settle" means a write did not keep. */
  lemma StageLoopsSettle(s: AuthSys, lock: bool, answers: nat -> Answers)
    requires Heads(s, lock) && AllQuiet(answers)
    ensures Loop(s, lock, answers, 0).turns <= 6 < MAX_TURNS
    ensures !AtHead(Loop(s, lock, answers, 0).s.pc, lock)
  {
    TurnsPositive(s, lock);
    LoopSettles(s, lock, answers, 0);
  }

  /** And what a loop does is a run of the machine. */
  lemma {:induction false} LoopIsARun(s: AuthSys, lock: bool, answers: nat -> Answers, turns: nat)
      returns (actions: seq<Action>)
    requires turns <= MAX_TURNS
    ensures Loop(s, lock, answers, turns).s == Run(s, actions)
    ensures forall a :: a in actions ==> a.Do?
    decreases MAX_TURNS - turns
  {
    hide Advance;
    if turns == MAX_TURNS || !AtHead(s.pc, lock) {
      actions := [];
    } else {
      var x := Sees(answers(turns), s.w.route);
      var first := TurnIsARun(s, x);
      var rest := LoopIsARun(Turn(s, x), lock, answers, turns + 1);
      actions := first + rest;
      RunJoins(s, first, rest);
    }
  }

  lemma TurnIsARun(s: AuthSys, x: Answers) returns (actions: seq<Action>)
    ensures Turn(s, x) == Run(s, actions) && forall a :: a in actions ==> a == Do(x)
  {
    hide Advance;
    var s1 := Advance(s, x);
    actions := [Do(x)];
    assert Run(s, []) == s;
    RunJoins(s, [], actions);
    assert [] + actions == actions;
    var s2 := Onward(s1, x);
    actions := OnwardRuns(s, actions, x, s1);
    var s3 := Onward(s2, x);
    actions := OnwardRuns(s, actions, x, s2);
    actions := OnwardRuns(s, actions, x, s3);
  }

  lemma OnwardRuns(s: AuthSys, actions: seq<Action>, x: Answers, at: AuthSys) returns (more: seq<Action>)
    requires Run(s, actions) == at && forall a :: a in actions ==> a == Do(x)
    ensures Run(s, more) == Onward(at, x) && forall a :: a in more ==> a == Do(x)
  {
    hide Advance;
    if MidTurn(at.pc) {
      more := actions + [Do(x)];
      assert more[..|more| - 1] == actions;
    } else {
      more := actions;
    }
  }

  lemma {:induction false} RunJoins(s: AuthSys, a: seq<Action>, b: seq<Action>)
    ensures Run(s, a + b) == Run(Run(s, a), b)
  {
    hide Step;
    if b == [] {
      assert a + b == a;
    } else {
      RunJoins(s, a, b[..|b| - 1]);
      assert (a + b)[..|a + b| - 1] == a + b[..|b| - 1];
    }
  }

  // ----------------------------------------------- a turn, in fewer pieces

  lemma OnwardSave(w: World, l: Local, next: Next, x: Answers)
    ensures Onward(At(w, Saving(l, next)), x) == SaveStep(w, l, next, x.commit)
    ensures !next.ToDispatch? ==> !MidTurn(SaveStep(w, l, next, x.commit).pc)
  {
  }

  lemma OnwardEnd(w: World, l: Local, err: bool, x: Answers)
    ensures Onward(At(w, Closing(l, err)), x) == At(w, Closing(l, err))
  {
  }

  /** The tail of a turn: its save, or its end. */
  predicate Tail(pc: Pc) {
    pc.Closing? || (pc.Saving? && !pc.next.ToDispatch?)
  }

  lemma TailEnds(s: AuthSys, x: Answers)
    requires Tail(s.pc)
    ensures !MidTurn(Onward(s, x).pc)
  {
  }

  lemma CreateTails(w: World, l: Local, created: bool, x: Answers)
    ensures Tail(CreatePolicyStep(w, l, created, x).pc) && Tail(PublishStep(w, l, x).pc)
    ensures var pc := CreateStep(w, l, x).pc; Tail(pc) || pc.CreatePolicy? || pc == PublishRoute(l)
  {
  }

  /** A turn of runCreate: its first operation, its second where it has one, and its save. */
  lemma CreateTurnIs(w: World, l: Local, x: Answers)
    ensures var s := CreateStep(w, l, x);
            Turn(AuthSys(w, CreateTurn(l)), x) ==
            Onward(match s.pc
                   case CreatePolicy(l1, created) => CreatePolicyStep(s.w, l1, created, x)
                   case PublishRoute(l1) => PublishStep(s.w, l1, x)
                   case _ => s, x)
  {
    hide CreateStep, CreatePolicyStep, PublishStep, Tail;
    var s := CreateStep(w, l, x);
    CreateTails(w, l, false, x);
    if s.pc.CreatePolicy? {
      CreateTails(s.w, s.pc.l, s.pc.created, x);
      TailEnds(CreatePolicyStep(s.w, s.pc.l, s.pc.created, x), x);
    } else if s.pc.PublishRoute? {
      CreateTails(s.w, s.pc.l, false, x);
      TailEnds(PublishStep(s.w, s.pc.l, x), x);
    } else {
      TailEnds(s, x);
    }
  }

  lemma LockTails(w: World, l: Local, rt: Route, nacked: bool, clean: bool, x: Answers)
    ensures Tail(LockProbeStep(w, l, rt, nacked, clean, x).pc)
    ensures var pc := LockRepointStep(w, l, nacked, clean, x).pc; Tail(pc) || pc.LockProbe?
    ensures var pc := LockStep(w, l, rt, x).pc; Tail(pc) || pc.LockRepoint? || pc.LockProbe?
  {
  }

  /** The probe of a Lock's turn, and the re-point before it where there is one. */
  function Probed(s: AuthSys, x: Answers): AuthSys {
    match s.pc
    case LockProbe(l, rt, nacked, clean) => LockProbeStep(s.w, l, rt, nacked, clean, x)
    case _ => s
  }

  function Repointed(s: AuthSys, x: Answers): AuthSys {
    match s.pc
    case LockRepoint(l, rt, nacked, clean) => LockRepointStep(s.w, l, nacked, clean, x)
    case _ => s
  }

  lemma LockTurnIs(w: World, l: Local, rt: Route, x: Answers)
    ensures Turn(AuthSys(w, LockTurn(l, rt)), x) == Onward(Probed(Repointed(LockStep(w, l, rt, x), x), x), x)
  {
    hide LockStep, LockRepointStep, LockProbeStep, Tail;
    var s := LockStep(w, l, rt, x);
    LockTails(w, l, rt, false, false, x);
    if s.pc.LockRepoint? {
      LockTails(s.w, s.pc.l, s.pc.rt, s.pc.nacked, s.pc.clean, x);
      var s1 := Repointed(s, x);
      if s1.pc.LockProbe? {
        LockTails(s1.w, s1.pc.l, s1.pc.rt, s1.pc.nacked, s1.pc.clean, x);
        TailEnds(Probed(s1, x), x);
      } else {
        TailEnds(s1, x);
      }
    } else if s.pc.LockProbe? {
      LockTails(s.w, s.pc.l, s.pc.rt, s.pc.nacked, s.pc.clean, x);
      TailEnds(Probed(s, x), x);
    } else {
      TailEnds(s, x);
    }
  }

  /** A stage a loop does not know is an error. */
  lemma UnknownStage(w: World, l: Local, rt: Route, x: Answers)
    requires TxOf(l.auth).Some?
    ensures TxOf(l.auth).value.stage in {Refused, ProbingBefore} ==>
              Turn(AuthSys(w, CreateTurn(l)), x) == AuthSys(w, Closing(l, true))
    ensures TxOf(l.auth).value.stage in {Refused, PreparingRoute, Publishing} ==>
              Turn(AuthSys(w, LockTurn(l, rt)), x) == AuthSys(w, Closing(l, true))
  {
    hide Turn, Onward;
    CreateTurnIs(w, l, x);
    LockTurnIs(w, l, rt, x);
    OnwardEnd(w, l, true, x);
  }
}
