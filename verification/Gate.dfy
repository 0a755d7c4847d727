/**
 The gate branch of the Agent reconciler: what holds a candidate at zero
 traffic, first match wins.
 */
module Gate {
  import opened Types
  import opened EvalLists
  import opened SendPredicates

  datatype RecordCheck = Kept | NotKept | Unverifiable

  datatype SuiteRead = SuiteNotFound | SuiteUnreadable | SuiteUndigestable | SuiteOf(suite: Suite)

  datatype GateReason =
    | EvalRecordUnverifiable | EvalRecordNotKept | EvalSuiteNotFound | EvalSuiteUnreadable
    | EvalAwaitingCard | EvalFailed | EvalPairAlreadyFailed | EvalWaitingForAuth
    | EvalCandidateUnaddressable | EvalBindingUnsupported | EvalPaused | EvalRunning

  datatype Decision = Satisfied | Hold(reason: GateReason)

  datatype GateIn = GateIn(desired: Digest, record: RecordCheck, suite: SuiteRead, available: bool, status: Status)

  predicate Matched(e: Option<EvalStatus>, revision: Digest, suite: Suite) {
    e.Some? && e.value.revision == revision && e.value.suite == Some(suite)
  }

  predicate Judged(e: Option<EvalStatus>, revision: Digest, suite: Suite, v: Verdict) {
    Matched(e, revision, suite) && e.value.verdict == v
  }

  predicate AlreadyFailed(e: Option<EvalStatus>, revision: Digest, suite: Suite) {
    e.Some? && PairFailed(e.value.failed, revision, suite)
  }

  /** blockedForMatches: blocked speaks only of the current pair and Lock. */
  predicate BlockedForMatches(e: Option<EvalStatus>, revision: Digest, suite: Suite, st: Status) {
    e.Some? && e.value.blockedFor == Some(BlockedFor(revision, suite, RecordedLockDeadline(st.auth)))
  }

  function NoVerdictRows(available: bool): Decision {
    Hold(if available then EvalRunning else EvalPaused)
  }

  function BlockedRow(reason: BlockReason): Option<GateReason> {
    match reason
    case Unaddressable => Some(EvalCandidateUnaddressable)
    case BindingUnsupported => Some(EvalBindingUnsupported)
    case AwaitingCard => Some(EvalAwaitingCard)
    case WaitingForAuth => Some(EvalWaitingForAuth)
    case OtherReason => None
  }

  /** decideGate. */
  function DecideGate(i: GateIn): Decision {
    match i.record
    case Unverifiable => Hold(EvalRecordUnverifiable)
    case NotKept => Hold(EvalRecordNotKept)
    case Kept =>
      match i.suite
      case SuiteNotFound => Hold(EvalSuiteNotFound)
      case SuiteUnreadable => Hold(EvalSuiteUnreadable)
      case SuiteUndigestable => Hold(EvalSuiteUnreadable)
      case SuiteOf(suite) => DecideForPair(i.status, i.desired, suite, i.available)
  }

  function DecideForPair(st: Status, desired: Digest, suite: Suite, available: bool): Decision {
    var e := st.eval;
    var bfMatched := BlockedForMatches(e, desired, suite, st);
    if Judged(e, desired, suite, Passed) then
      if HasCardFor(st.cards, desired) then Satisfied else Hold(EvalAwaitingCard)
    else if Judged(e, desired, suite, Failed) then Hold(EvalFailed)
    else if AlreadyFailed(e, desired, suite) then Hold(EvalPairAlreadyFailed)
    else if !HasCardFor(st.cards, desired) then Hold(EvalAwaitingCard)
    else if !TransactionAdmits(st) then Hold(EvalWaitingForAuth)
    else if !available then NoVerdictRows(available)
    else if RecordedTransaction(st.auth).Some? && !bfMatched then Hold(EvalWaitingForAuth)
    else if e.Some? && e.value.blocked.Some? && bfMatched && BlockedRow(e.value.blocked.value.reason).Some? then
      Hold(BlockedRow(e.value.blocked.value.reason).value)
    else NoVerdictRows(available)
  }

  /** The four promotion conditions, and nothing else, satisfy the gate. */
  lemma SatisfiedExactly(i: GateIn)
    ensures DecideGate(i) == Satisfied <==>
            && i.record == Kept && i.suite.SuiteOf?
            && i.status.eval.Some? && i.status.eval.value.revision == i.desired
            && i.status.eval.value.suite == Some(i.suite.suite) && i.status.eval.value.verdict == Passed
            && HasCardFor(i.status.cards, i.desired)
  {
    if i.record == Kept && i.suite.SuiteOf? {
      var d := DecideForPair(i.status, i.desired, i.suite.suite, i.available);
      assert d == Satisfied || d.Hold?;
    }
  }

  /** EvalRunning, exactly. */
  lemma RunningExactly(i: GateIn)
    ensures DecideGate(i) == Hold(EvalRunning) <==>
            && i.record == Kept && i.suite.SuiteOf? && i.available
            && var e, suite := i.status.eval, i.suite.suite;
               && !Judged(e, i.desired, suite, Passed)
               && !Judged(e, i.desired, suite, Failed)
               && !AlreadyFailed(e, i.desired, suite)
               && HasCardFor(i.status.cards, i.desired)
               && TransactionAdmits(i.status)
               && (RecordedTransaction(i.status.auth).Some? ==> BlockedForMatches(e, i.desired, suite, i.status))
               && (BlockedForMatches(e, i.desired, suite, i.status) && e.value.blocked.Some? ==>
                     e.value.blocked.value.reason == OtherReason)
  {
    if i.record == Kept && i.suite.SuiteOf? {
      var d := DecideForPair(i.status, i.desired, i.suite.suite, i.available);
      assert d == Satisfied || d.Hold?;
    }
  }

  /** What stands before any row of the pair: a record that cannot be trusted, or no suite. */
  predicate PairReadable(i: GateIn) {
    i.record == Kept && i.suite.SuiteOf?
  }

  /** No final verdict for the pair, and it has not failed before. */
  predicate Undecided(st: Status, desired: Digest, suite: Suite) {
    st.eval.Some? ==>
      && !(&& st.eval.value.revision == desired && st.eval.value.suite == Some(suite)
           && st.eval.value.verdict in {Passed, Failed})
      && Pair(desired, suite) !in st.eval.value.failed
  }

  /** The eval controller's note stands for this pair and this Lock. */
  predicate NoteStands(st: Status, desired: Digest, suite: Suite, reason: BlockReason) {
    && st.eval.Some? && st.eval.value.blocked.Some? && st.eval.value.blocked.value.reason == reason
    && st.eval.value.blockedFor == Some(BlockedFor(desired, suite, RecordedLockDeadline(st.auth)))
  }

  /** Past every row above the note: undecided, carded, admitted, available, and
      beside an exempt Lock evaluated for it. */
  predicate ReachesNote(st: Status, desired: Digest, suite: Suite, available: bool) {
    && Undecided(st, desired, suite) && HasCardFor(st.cards, desired) && TransactionAdmits(st) && available
    && (RecordedTransaction(st.auth).Some? ==>
          st.eval.Some? && st.eval.value.blockedFor == Some(BlockedFor(desired, suite, RecordedLockDeadline(st.auth))))
  }

  /** Every other row, exactly: when the gate holds, and for which reason. */
  lemma HoldsExactly(i: GateIn)
    ensures DecideGate(i) == Hold(EvalRecordUnverifiable) <==> i.record == Unverifiable
    ensures DecideGate(i) == Hold(EvalRecordNotKept) <==> i.record == NotKept
    ensures DecideGate(i) == Hold(EvalSuiteNotFound) <==> i.record == Kept && i.suite == SuiteNotFound
    ensures DecideGate(i) == Hold(EvalSuiteUnreadable) <==>
              i.record == Kept && (i.suite == SuiteUnreadable || i.suite == SuiteUndigestable)
    ensures DecideGate(i) == Hold(EvalFailed) <==>
              PairReadable(i) && Judged(i.status.eval, i.desired, i.suite.suite, Failed)
    ensures DecideGate(i) == Hold(EvalPairAlreadyFailed) <==>
              && PairReadable(i) && i.status.eval.Some? && Pair(i.desired, i.suite.suite) in i.status.eval.value.failed
              && !Judged(i.status.eval, i.desired, i.suite.suite, Passed)
              && !Judged(i.status.eval, i.desired, i.suite.suite, Failed)
    ensures DecideGate(i) == Hold(EvalPaused) <==>
              && PairReadable(i) && Undecided(i.status, i.desired, i.suite.suite)
              && HasCardFor(i.status.cards, i.desired) && TransactionAdmits(i.status) && !i.available
    ensures DecideGate(i) == Hold(EvalCandidateUnaddressable) <==>
              && PairReadable(i) && ReachesNote(i.status, i.desired, i.suite.suite, i.available)
              && NoteStands(i.status, i.desired, i.suite.suite, Unaddressable)
    ensures DecideGate(i) == Hold(EvalBindingUnsupported) <==>
              && PairReadable(i) && ReachesNote(i.status, i.desired, i.suite.suite, i.available)
              && NoteStands(i.status, i.desired, i.suite.suite, BindingUnsupported)
    ensures DecideGate(i) == Hold(EvalAwaitingCard) <==>
              && PairReadable(i)
              && (|| (Judged(i.status.eval, i.desired, i.suite.suite, Passed) && !HasCardFor(i.status.cards, i.desired))
                  || (Undecided(i.status, i.desired, i.suite.suite) && !HasCardFor(i.status.cards, i.desired))
                  || (&& ReachesNote(i.status, i.desired, i.suite.suite, i.available)
                      && NoteStands(i.status, i.desired, i.suite.suite, AwaitingCard)))
    ensures DecideGate(i) == Hold(EvalWaitingForAuth) <==>
              && PairReadable(i) && Undecided(i.status, i.desired, i.suite.suite)
              && HasCardFor(i.status.cards, i.desired)
              && (|| !TransactionAdmits(i.status)
                  || (&& i.available && RecordedTransaction(i.status.auth).Some?
                      && !ReachesNote(i.status, i.desired, i.suite.suite, i.available))
                  || (&& ReachesNote(i.status, i.desired, i.suite.suite, i.available)
                      && NoteStands(i.status, i.desired, i.suite.suite, WaitingForAuth)))
  {
    if PairReadable(i) {
      assert DecideGate(i) == DecideForPair(i.status, i.desired, i.suite.suite, i.available);
    }
  }
}
