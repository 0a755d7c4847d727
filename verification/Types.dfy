/**
 The stored objects both controllers read and write: `status` of an Agent, with
 its `auth` and `eval` parts, and the values they hold.

 Names and digests are natural numbers with 0 for the empty string. A suite's
 digest is taken to be injective, so a suite stands for its own digest; its ids
 are in the order `suiteIDs` gives them.
 */
module Types {

  datatype Option<+T> = None | Some(value: T)

  type Rev = nat      // a revision's short name
  type Digest = nat   // a full digest
  type CaseId = nat   // ids compare as the source's strings do
  type Nonce = nat
  type Instant = nat  // a deadline, to the second

  /** `threshold` is in thousandths; `content` is everything else the digest covers. */
  datatype Suite = Suite(ids: seq<CaseId>, threshold: nat, content: nat)

  datatype Pair = Pair(revision: Digest, suite: Suite)

  datatype Outcome = Sending | CasePassed | CaseFailed

  datatype CaseReason = NoReason | Interrupted | Answered(text: nat)

  /** An entry of `cases[]`, less its id. */
  datatype Entry = Entry(outcome: Outcome, reason: CaseReason, claim: Nonce)

  datatype Verdict = NoVerdict | Running | Passed | Failed

  datatype BlockReason = Unaddressable | BindingUnsupported | AwaitingCard | WaitingForAuth | OtherReason

  datatype Blocked = Blocked(reason: BlockReason, text: nat)

  datatype BlockedFor = BlockedFor(revision: Digest, suite: Suite, lockDeadline: Option<Instant>)

  /** `cases[]` holds at most one entry per id, so it is a map here; EvalLists
      proves that the list code keeps it one. */
  datatype EvalStatus = EvalStatus(
    revision: Digest,
    suite: Option<Suite>,
    endpoint: nat,
    card: Digest,
    verdict: Verdict,
    cases: map<CaseId, Entry>,
    failed: seq<Pair>,
    passed: seq<Pair>,
    blocked: Option<Blocked>,
    blockedFor: Option<BlockedFor>)

  const EmptyEval: EvalStatus := EvalStatus(0, None, 0, 0, NoVerdict, map[], [], [], None, None)

  datatype Mode = Unset | NoAuth | ApiKey | OAuth

  datatype Kind = Create | Lock | Adopt

  datatype Stage =
    | Refused | ProbingBefore | PreparingRoute | ApplyingPolicies
    | Converging | ProbingAfter | Publishing

  datatype Tx = Tx(
    kind: Kind,
    targetMode: Mode,
    targetDigest: Digest,
    stage: Stage,
    written: bool,
    beforeObserved: bool,
    beforeRevision: Rev,
    refusedMode: Mode,
    deadline: Option<Instant>)

  /** The three latched claims of `status.auth`. */
  datatype Claims = Claims(routeRefused: bool, policyUnattached: bool, keySourceEmpty: bool)

  const NoClaims: Claims := Claims(false, false, false)

  datatype AuthStatus = AuthStatus(mode: Mode, appliedDigest: Digest, tx: Option<Tx>, claims: Claims)

  datatype Card = Card(revision: Rev, revisionDigest: Digest, digest: Digest)

  datatype Status = Status(
    activeRev: Rev,
    activeDigest: Digest,
    candidateRev: Rev,
    candidateDigest: Digest,
    cards: seq<Card>,
    auth: Option<AuthStatus>,
    eval: Option<EvalStatus>)

  /** `<agent>-serving`: the revisions its backendRefs name, the no-auth marker,
      and this Agent's UID label. */
  datatype Route = Route(backends: seq<Rev>, marker: bool, labelled: bool)

  /** `<agent>-auth`: whether it carries this Agent's UID, and its digest. */
  datatype Policy = Policy(own: bool, digest: Digest)

  /** This Agent's own policy is at the name. */
  predicate Own(policy: Option<Policy>) {
    policy.Some? && policy.value.own
  }
}
