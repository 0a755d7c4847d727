/**
 The predicates both controllers decide with, and the attribution rules of the
 `-auth` Lock they must agree with.
 */
module SendPredicates {
  import opened Types

  predicate CandidatePending(st: Status) {
    st.candidateDigest != 0 && st.candidateDigest != st.activeDigest
  }

  /** hasCardFor: the first card of that revision digest has a digest. */
  predicate HasCardFor(cards: seq<Card>, revisionDigest: Digest) {
    if cards == [] then false
    else if cards[0].revisionDigest == revisionDigest then cards[0].digest != 0
    else HasCardFor(cards[1..], revisionDigest)
  }

  /** cardedRevision: read by the revision's name. */
  predicate CardedRevision(cards: seq<Card>, rev: Rev) {
    rev != 0 && exists i :: 0 <= i < |cards| && cards[i].revision == rev && cards[i].digest != 0
  }

  predicate Published(rt: Route) {
    rt.backends != []
  }

  function SingleBackend(rt: Route): Option<Rev> {
    if |rt.backends| == 1 then Some(rt.backends[0]) else None
  }

  /** cardAttributes: the first carded entry the route's one backendRef names. */
  predicate CardAttributes(cards: seq<Card>, rt: Route) {
    SingleBackend(rt).Some? && AttributesFrom(cards, SingleBackend(rt).value)
  }

  predicate AttributesFrom(cards: seq<Card>, backend: Rev) {
    if cards == [] then false
    else (cards[0].digest != 0 && cards[0].revision == backend) || AttributesFrom(cards[1..], backend)
  }

  /** A recorded card of the revision has this digest. */
  predicate CardServed(cards: seq<Card>, rev: Rev, body: Digest) {
    body != 0 && exists c :: c in cards && c.revision == rev && c.digest == body
  }

  /** beforeRevisionFor: the revision whose own card a 200 served, or 0. */
  function BeforeRevisionFor(cards: seq<Card>, rt: Route, code: nat, body: Digest): (rev: Rev)
    ensures rev != 0 ==> SingleBackend(rt) == Some(rev) && code == 200 && CardServed(cards, rev, body)
  {
    if code != 200 || body == 0 || SingleBackend(rt).None? then 0
    else BeforeFrom(cards, SingleBackend(rt).value, body)
  }

  function BeforeFrom(cards: seq<Card>, backend: Rev, body: Digest): (rev: Rev)
    requires body != 0
    ensures rev != 0 ==> rev == backend && CardServed(cards, backend, body)
  {
    if cards == [] then 0
    else if cards[0].digest != 0 && cards[0].revision == backend then
      if cards[0].digest == body then backend else 0
    else BeforeFrom(cards[1..], backend, body)
  }

  /** A Create or a Lock in the slot. A refused Adopt is neither. */
  function RecordedTransaction(auth: Option<AuthStatus>): Option<Tx> {
    if auth.Some? && auth.value.tx.Some? && auth.value.tx.value.kind != Adopt then auth.value.tx else None
  }

  predicate IsReCreation(auth: Option<AuthStatus>) {
    && auth.Some? && auth.value.tx.Some? && auth.value.mode != Unset
    && var tx := auth.value.tx.value;
       tx.kind == Create || (tx.kind == Lock && tx.targetMode == auth.value.mode)
  }

  /** exemptTransaction's clauses 1 to 4. */
  predicate Exempt(st: Status) {
    && RecordedTransaction(st.auth).Some?
    && var tx := RecordedTransaction(st.auth).value;
       && tx.kind == Lock
       && !IsReCreation(st.auth)
       && tx.stage == ProbingAfter
       && !tx.beforeObserved
       && !CardedRevision(st.cards, st.activeRev)
  }

  /** Nothing in the slot holds the eval: no Create or Lock, or an exempt Lock. */
  predicate TransactionAdmits(st: Status) {
    RecordedTransaction(st.auth).None? || Exempt(st)
  }

  /** The rule spelled out: an empty slot, a refused Adopt, or a Lock of a mode
      not yet served, at ProbingAfter, that no 401 could end, the before-state
      unobserved and the active revision's card unrecorded. */
  lemma AdmitsExactly(st: Status)
    ensures TransactionAdmits(st) <==>
            || st.auth.None? || st.auth.value.tx.None?
            || st.auth.value.tx.value.kind == Adopt
            || (var a, tx := st.auth.value, st.auth.value.tx.value;
                && tx.kind == Lock && (a.mode == Unset || tx.targetMode != a.mode)
                && tx.stage == ProbingAfter && !tx.beforeObserved
                && forall c :: c in st.cards && st.activeRev != 0 && c.revision == st.activeRev ==> c.digest == 0)
  {
    if CardedRevision(st.cards, st.activeRev) {
      var k :| 0 <= k < |st.cards| && st.cards[k].revision == st.activeRev && st.cards[k].digest != 0;
      assert st.cards[k] in st.cards;
    } else {
      forall c | c in st.cards && st.activeRev != 0 && c.revision == st.activeRev
        ensures c.digest == 0
      {
        var k :| 0 <= k < |st.cards| && st.cards[k] == c;
        assert st.cards[k].revision == st.activeRev;
      }
    }
  }

  /** The first entry of status.cards for a revision. */
  function FirstCard(cards: seq<Card>, revisionDigest: Digest): (r: Option<Card>)
    ensures r.Some? ==> r.value in cards && r.value.revisionDigest == revisionDigest
    ensures HasCardFor(cards, revisionDigest) <==> r.Some? && r.value.digest != 0
  {
    if cards == [] then None
    else if cards[0].revisionDigest == revisionDigest then Some(cards[0])
    else FirstCard(cards[1..], revisionDigest)
  }

  lemma {:induction false} FirstCardMissing(cards: seq<Card>, revisionDigest: Digest)
    ensures FirstCard(cards, revisionDigest).None? <==> forall c :: c in cards ==> c.revisionDigest != revisionDigest
  {
    if cards != [] {
      FirstCardMissing(cards[1..], revisionDigest);
      assert cards == [cards[0]] + cards[1..];
    }
  }

  /** A card is recorded for a revision when the first entry of its digest has one. */
  lemma {:induction false} CardRecordedExactly(cards: seq<Card>, revisionDigest: Digest)
    ensures HasCardFor(cards, revisionDigest) <==>
            exists k :: 0 <= k < |cards| && cards[k].revisionDigest == revisionDigest && cards[k].digest != 0
                        && forall j :: 0 <= j < k ==> cards[j].revisionDigest != revisionDigest
  {
    if cards != [] && cards[0].revisionDigest != revisionDigest {
      var rest := cards[1..];
      CardRecordedExactly(rest, revisionDigest);
      if k :| 0 <= k < |rest| && rest[k].revisionDigest == revisionDigest && rest[k].digest != 0
              && forall j :: 0 <= j < k ==> rest[j].revisionDigest != revisionDigest {
        assert cards[k + 1] == rest[k];
        assert forall j :: 0 <= j < k + 1 ==> cards[j].revisionDigest != revisionDigest;
      }
      if k :| 0 <= k < |cards| && cards[k].revisionDigest == revisionDigest && cards[k].digest != 0
              && forall j :: 0 <= j < k ==> cards[j].revisionDigest != revisionDigest {
        assert rest[k - 1] == cards[k];
        assert forall j :: 0 <= j < k - 1 ==> rest[j].revisionDigest != revisionDigest;
      }
    }
  }

  function RecordedLockDeadline(auth: Option<AuthStatus>): Option<Instant> {
    if auth.Some? && auth.value.tx.Some? && auth.value.tx.value.kind == Lock then auth.value.tx.value.deadline
    else None
  }

  /** i1Hold: a served Agent whose current -auth input does not compile. */
  predicate I1Hold(gatewayEnabled: bool, auth: Option<AuthStatus>, compiles: bool, pinned: bool) {
    gatewayEnabled && !pinned && auth.Some? && !compiles && auth.value.mode != Unset
  }

  /** pinnedRollbackHolds: the recorded candidate is not what the spec mints. */
  predicate PinnedRollbackHolds(pin: Digest, candidate: Digest, spec: Option<Digest>) {
    if spec.None? then pin == 0 || pin == candidate else spec.value != candidate
  }

  /** A route's one backendRef is attributed by any recorded card of that revision. */
  lemma {:induction false} AttributesExactly(cards: seq<Card>, backend: Rev)
    ensures AttributesFrom(cards, backend) <==>
            exists i :: 0 <= i < |cards| && cards[i].revision == backend && cards[i].digest != 0
  {
    if cards != [] {
      AttributesExactly(cards[1..], backend);
      assert cards == [cards[0]] + cards[1..];
      if i :| 0 <= i < |cards[1..]| && cards[1..][i].revision == backend && cards[1..][i].digest != 0 {
        assert cards[i + 1].revision == backend;
      }
    }
  }

  /** The revision's first recorded card has this digest. */
  predicate FirstCardIs(cards: seq<Card>, rev: Rev, body: Digest) {
    exists k :: 0 <= k < |cards| && cards[k].revision == rev && cards[k].digest == body
                && forall j :: 0 <= j < k && cards[j].revision == rev ==> cards[j].digest == 0
  }

  /** A before-state is observed exactly on a 200 whose body is the recorded
      card of the one revision the route names, and it is that revision's. */
  lemma BeforeExactly(cards: seq<Card>, rt: Route, code: nat, body: Digest)
    ensures BeforeRevisionFor(cards, rt, code, body) ==
            if code == 200 && body != 0 && |rt.backends| == 1 && FirstCardIs(cards, rt.backends[0], body)
            then rt.backends[0] else 0
  {
    if body != 0 && |rt.backends| == 1 {
      BeforeFromExactly(cards, rt.backends[0], body);
    }
  }

  lemma {:induction false} BeforeFromExactly(cards: seq<Card>, rev: Rev, body: Digest)
    requires body != 0
    ensures BeforeFrom(cards, rev, body) == if FirstCardIs(cards, rev, body) then rev else 0
  {
    if cards != [] && !(cards[0].digest != 0 && cards[0].revision == rev) {
      var rest := cards[1..];
      BeforeFromExactly(rest, rev, body);
      if k :| 0 <= k < |rest| && rest[k].revision == rev && rest[k].digest == body
              && forall j :: 0 <= j < k && rest[j].revision == rev ==> rest[j].digest == 0 {
        assert cards[k + 1] == rest[k];
        assert forall j :: 0 < j < k + 1 ==> cards[j] == rest[j - 1];
      }
      if k :| 0 <= k < |cards| && cards[k].revision == rev && cards[k].digest == body
              && forall j :: 0 <= j < k && cards[j].revision == rev ==> cards[j].digest == 0 {
        assert rest[k - 1] == cards[k];
        assert forall j :: 0 <= j < k - 1 ==> rest[j] == cards[j + 1];
      }
    }
  }

  /** Whether a 401 through the route would be credited to the Lock. */
  predicate Creditable(st: Status, tx: Tx, rt: Route) {
    tx.beforeObserved || CardAttributes(st.cards, rt)
  }

  /** No mutual wait: beside a J2 or K2 Lock at ProbingAfter, on the route as
      that Lock leaves it, the eval is let through exactly when no 401 could
      end the Lock on its own. Never both, and never neither. */
  lemma NoMutualWait(st: Status, rt: Route)
    requires RecordedTransaction(st.auth).Some?
    requires RecordedTransaction(st.auth).value.kind == Lock
    requires RecordedTransaction(st.auth).value.stage == ProbingAfter
    requires !IsReCreation(st.auth)
    requires st.activeRev != 0 && rt.backends == [st.activeRev]
    ensures Exempt(st) <==> !Creditable(st, RecordedTransaction(st.auth).value, rt)
    ensures TransactionAdmits(st) <==> !Creditable(st, RecordedTransaction(st.auth).value, rt)
  {
    AttributesExactly(st.cards, st.activeRev);
  }
}
