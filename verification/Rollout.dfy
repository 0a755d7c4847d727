/**
 The Agent reconciler's rollout: the pin step, supersession, the card step, the
 gate choice and the rollout switch, as one pass applies them to `status`.
 */
module Rollout {
  import opened Types
  import opened EvalLists
  import opened SendPredicates
  import opened Gate

  datatype Gating = GateNone | GateUnwired | GateCRDAbsent | GateEnforced

  /** resolveReleasePin: a digest no retained revision carries is unresolvable. */
  datatype PinRequest = NoPin | PinUnresolvable | PinResolved(revision: Rev, digest: Digest)

  datatype CardFetch = NotDue | FetchFailed | Fetched(digest: Digest)

  /** What one pass reads besides status. `pinSuite` and `suite` are two reads. */
  datatype RolloutIn = RolloutIn(
    specRev: Rev, specDigest: Digest,
    pin: PinRequest, materialKept: bool, pinSuite: SuiteRead,
    gating: Gating, record: RecordCheck, suite: SuiteRead,
    materialized: bool, ready: bool, activeAvailable: bool,
    gatewayEnabled: bool, compiles: bool, card: CardFetch)

  /** pinIneligible, for a pin that does not name the revision serving. */
  predicate PinIneligible(pin: Digest, spec: Digest, st: Status, suite: SuiteRead) {
    || pin == spec
    || (suite.SuiteOf? && st.eval.Some? && PairFailed(st.eval.value.failed, pin, suite.suite))
  }

  predicate NamesActive(i: RolloutIn, st: Status) {
    i.pin.PinResolved? && i.pin.digest == st.activeDigest
  }

  /** The pin step refuses, and the pass leaves the release as it found it. */
  predicate PinRefused(st: Status, i: RolloutIn) {
    || i.pin.PinUnresolvable?
    || (i.pin.PinResolved? && i.gating == GateEnforced &&
        (!i.materialKept ||
         (!NamesActive(i, st) && PinIneligible(i.pin.digest, i.specDigest, st, i.pinSuite))))
  }

  predicate PinAdmitted(st: Status, i: RolloutIn) {
    i.pin.PinResolved? && i.gating == GateEnforced && !PinRefused(st, i) && !NamesActive(i, st)
  }

  function DesiredRev(i: RolloutIn): Rev { if i.pin.PinResolved? then i.pin.revision else i.specRev }

  function DesiredDigest(i: RolloutIn): Digest { if i.pin.PinResolved? then i.pin.digest else i.specDigest }

  /** collisionAgainstStatus: a recorded name under another identity. */
  predicate Collides(st: Status, rev: Rev, digest: Digest) {
    || (st.activeRev == rev && st.activeDigest != 0 && st.activeDigest != digest)
    || (st.candidateRev == rev && st.candidateDigest != 0 && st.candidateDigest != digest)
  }

  function Superseded(st: Status, desired: Digest): Status {
    if st.candidateRev != 0 && st.candidateDigest != desired then st.(candidateRev := 0, candidateDigest := 0) else st
  }

  /** upsertCard. */
  function Upsert(cards: seq<Card>, c: Card): seq<Card> {
    if cards == [] then [c]
    else if cards[0].revisionDigest == c.revisionDigest then [c] + cards[1..]
    else [cards[0]] + Upsert(cards[1..], c)
  }

  /** An upsert decides the first entry of its own revision, and of no other. */
  lemma {:induction false} UpsertRecords(cards: seq<Card>, c: Card, other: Digest)
    ensures FirstCard(Upsert(cards, c), other) == if other == c.revisionDigest then Some(c) else FirstCard(cards, other)
  {
    if cards != [] && cards[0].revisionDigest != c.revisionDigest {
      UpsertRecords(cards[1..], c, other);
    }
  }

  /** A failed fetch records the attempt with no digest. */
  function CardStep(st: Status, i: RolloutIn): Status {
    if !i.ready then st
    else match i.card
      case NotDue => st
      case FetchFailed => st.(cards := Upsert(st.cards, Card(DesiredRev(i), DesiredDigest(i), 0)))
      case Fetched(d) => st.(cards := Upsert(st.cards, Card(DesiredRev(i), DesiredDigest(i), d)))
  }

  function GateInput(st: Status, i: RolloutIn): GateIn {
    GateIn(DesiredDigest(i), i.record, i.suite, i.ready, st)
  }

  /** The gate choice before the switch. */
  predicate GateSatisfied(st: Status, i: RolloutIn, admitted: bool) {
    if st.activeDigest == DesiredDigest(i) then true
    else if admitted then true
    else match i.gating
      case GateUnwired => false
      case GateEnforced => DecideGate(GateInput(st, i)) == Satisfied
      case GateNone => true
      case GateCRDAbsent => true
  }

  predicate HeldForAuth(st: Status, i: RolloutIn) {
    I1Hold(i.gatewayEnabled, st.auth, i.compiles, i.pin.PinResolved?)
  }

  function AsCandidate(st: Status, i: RolloutIn): Status {
    st.(candidateRev := DesiredRev(i), candidateDigest := DesiredDigest(i))
  }

  /** The rollout switch. */
  function Switch(st: Status, i: RolloutIn, gateSatisfied: bool): Status {
    var moving := st.activeDigest != DesiredDigest(i);
    if !i.ready && st.activeRev != 0 && moving && i.activeAvailable then AsCandidate(st, i)
    else if !i.ready then
      if moving then AsCandidate(st, i) else st.(candidateRev := 0, candidateDigest := 0)
    else if HeldForAuth(st, i) && st.activeRev != 0 && moving then AsCandidate(st, i)
    else if !gateSatisfied && moving then AsCandidate(st, i)
    else st.(activeRev := DesiredRev(i), activeDigest := DesiredDigest(i), candidateRev := 0, candidateDigest := 0)
  }

  /** One pass's rollout. */
  function Roll(st: Status, i: RolloutIn): Status {
    if PinRefused(st, i) || Collides(st, DesiredRev(i), DesiredDigest(i)) then st
    else
      var st1 := Superseded(st, DesiredDigest(i));
      if !i.materialized then st1
      else
        var st2 := CardStep(st1, i);
        Switch(st2, i, GateSatisfied(st2, i, PinAdmitted(st, i)))
  }

  /** The wanted revision's card, as this pass knows it: fetched now, or
      recorded before and not cleared by a fetch that failed. */
  predicate CardKnown(st: Status, i: RolloutIn, digest: Digest) {
    if i.ready && !i.card.NotDue? then i.card.Fetched? && i.card.digest != 0 else HasCardFor(st.cards, digest)
  }

  /** The gate's own authority: a Passed verdict for the revision against the
      suite read this pass, with its card known. */
  predicate ByGate(st: Status, i: RolloutIn) {
    && i.pin.NoPin? && i.record == Kept && i.suite.SuiteOf?
    && st.eval.Some? && st.eval.value.revision == i.specDigest
    && st.eval.value.suite == Some(i.suite.suite) && st.eval.value.verdict == Passed
    && CardKnown(st, i, i.specDigest)
  }

  /** A pin's authority: a retained revision the spec does not mint, and no
      failure against a suite that could be read. */
  predicate ByPin(st: Status, i: RolloutIn) {
    && i.pin.PinResolved? && i.materialKept && i.pin.digest != i.specDigest
    && (i.pinSuite.SuiteOf? && st.eval.Some? ==> Pair(i.pin.digest, i.pinSuite.suite) !in st.eval.value.failed)
  }

  /** What a recorded name says against a revision: the same name, another identity. */
  predicate Clashes(name: Rev, recorded: Digest, rev: Rev, digest: Digest) {
    name == rev && recorded != 0 && recorded != digest
  }

  /** Promotion authorization: the active revision moves exactly when the
      wanted one, the pin's if there is one and the spec's otherwise, is
      another, clashes with no recorded name, is materialized and available and
      is not held for -auth, and the gating in force lets it: an enforced gate
      on the gate's authority or a pin's, an unwired one never, no gate at all
      on any wanted revision that resolves. And it moves to that revision. */
  lemma PromotesExactly(st: Status, i: RolloutIn)
    ensures var rev := if i.pin.PinResolved? then i.pin.revision else i.specRev;
            var digest := if i.pin.PinResolved? then i.pin.digest else i.specDigest;
            var r := Roll(st, i);
            && (r.activeDigest != st.activeDigest <==>
                  && digest != st.activeDigest
                  && !Clashes(st.activeRev, st.activeDigest, rev, digest)
                  && !Clashes(st.candidateRev, st.candidateDigest, rev, digest)
                  && i.materialized && i.ready
                  && !(&& i.gatewayEnabled && !i.pin.PinResolved? && !i.compiles
                       && st.auth.Some? && st.auth.value.mode != Unset && st.activeRev != 0)
                  && match i.gating
                     case GateEnforced => ByGate(st, i) || ByPin(st, i)
                     case GateUnwired => false
                     case GateNone => !i.pin.PinUnresolvable?
                     case GateCRDAbsent => !i.pin.PinUnresolvable?)
            && (r.activeDigest != st.activeDigest ==> r.activeDigest == digest && r.activeRev == rev)
  {
    CardStepKnown(Superseded(st, DesiredDigest(i)), i, DesiredDigest(i));
    SatisfiedExactly(GateInput(CardStep(Superseded(st, DesiredDigest(i)), i), i));
  }

  /** What is recorded for a revision after a pass: the wanted one's fetch, if
      there was one, and otherwise what was. */
  predicate Records(st: Status, i: RolloutIn, wanted: Card, digest: Digest, now: Option<Card>) {
    if digest == wanted.revisionDigest && i.ready && !i.card.NotDue?
    then now == Some(wanted.(digest := if i.card.Fetched? then i.card.digest else 0))
    else now == FirstCard(st.cards, digest)
  }

  lemma CardStepKnown(st: Status, i: RolloutIn, digest: Digest)
    ensures Records(st, i, Card(DesiredRev(i), DesiredDigest(i), 0), digest, FirstCard(CardStep(st, i).cards, digest))
    ensures HasCardFor(CardStep(st, i).cards, digest) <==>
            if digest == DesiredDigest(i) then CardKnown(st, i, digest) else HasCardFor(st.cards, digest)
  {
    match i.card
    case NotDue =>
    case FetchFailed => UpsertRecords(st.cards, Card(DesiredRev(i), DesiredDigest(i), 0), digest);
    case Fetched(d) => UpsertRecords(st.cards, Card(DesiredRev(i), DesiredDigest(i), d), digest);
  }

  /** A pin is refused, and the pass changes nothing: it resolves to no retained
      revision, or under an enforced gate its material is gone, or it names the
      revision the spec mints or one that failed the suite in force, and not
      the one serving. */
  predicate Refuses(st: Status, i: RolloutIn) {
    match i.pin
    case NoPin => false
    case PinUnresolvable => true
    case PinResolved(_, digest) =>
      && i.gating == GateEnforced
      && (|| !i.materialKept
          || (&& digest != st.activeDigest
              && (|| digest == i.specDigest
                  || (&& i.pinSuite.SuiteOf? && st.eval.Some?
                      && Pair(digest, i.pinSuite.suite) in st.eval.value.failed))))
  }

  /** What a pass leaves. A refused or clashing pass leaves everything as it
      found it; one that materializes nothing drops a candidate that is no
      longer wanted; any other leaves the wanted revision active with no
      candidate beside it, or as the candidate beside an active one that did
      not move, and the wanted revision's card as this pass knows it. */
  lemma RollSettles(st: Status, i: RolloutIn, other: Digest)
    ensures var rev := if i.pin.PinResolved? then i.pin.revision else i.specRev;
            var digest := if i.pin.PinResolved? then i.pin.digest else i.specDigest;
            var r := Roll(st, i);
            if || Refuses(st, i) || Clashes(st.activeRev, st.activeDigest, rev, digest)
               || Clashes(st.candidateRev, st.candidateDigest, rev, digest)
            then r == st
            else if !i.materialized then
              if st.candidateRev != 0 && st.candidateDigest != digest
              then r == st.(candidateRev := 0, candidateDigest := 0) else r == st
            else
              && (if r.activeDigest == digest
                  then && r.candidateRev == 0 && r.candidateDigest == 0
                       && r.activeRev == (if i.ready then rev else st.activeRev)
                  else && r.candidateRev == rev && r.candidateDigest == digest
                       && r.activeRev == st.activeRev && r.activeDigest == st.activeDigest)
              && (HasCardFor(r.cards, digest) <==> CardKnown(st, i, digest))
              && Records(st, i, Card(rev, digest, 0), other, FirstCard(r.cards, other))
  {
    CardStepKnown(Superseded(st, DesiredDigest(i)), i, DesiredDigest(i));
    CardStepKnown(Superseded(st, DesiredDigest(i)), i, other);
  }

  /** No rollout touches what the other controller or the -auth step owns. */
  lemma RollKeepsTheRest(st: Status, i: RolloutIn)
    ensures Roll(st, i).eval == st.eval && Roll(st, i).auth == st.auth
  {
  }
}
