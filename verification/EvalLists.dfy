/**
 The list code of the eval controller: `cases[]`, `failed[]` and `passed[]` are
 rebuilt as new slices by loops, because a merge patch replaces a list whole.
 */
module EvalLists {
  import opened Types

  // ---------------------------------------------------------------- cases[]

  datatype CaseRecord = CaseRecord(id: CaseId, entry: Entry)

  predicate DistinctIds(cs: seq<CaseRecord>) {
    forall i, j :: 0 <= i < j < |cs| ==> cs[i].id != cs[j].id
  }

  predicate SortedById(cs: seq<CaseRecord>) {
    forall i, j :: 0 <= i < j < |cs| ==> cs[i].id < cs[j].id
  }

  /** caseRecord: the first entry of that id. */
  function Find(cs: seq<CaseRecord>, id: CaseId): Option<Entry> {
    if cs == [] then None
    else if cs[0].id == id then Some(cs[0].entry)
    else Find(cs[1..], id)
  }

  function Without(cs: seq<CaseRecord>, id: CaseId): seq<CaseRecord> {
    if cs == [] then []
    else if cs[|cs| - 1].id == id then Without(cs[..|cs| - 1], id)
    else Without(cs[..|cs| - 1], id) + [cs[|cs| - 1]]
  }

  function InsertById(cs: seq<CaseRecord>, c: CaseRecord): seq<CaseRecord> {
    if cs == [] then [c]
    else if c.id <= cs[0].id then [c] + cs
    else [cs[0]] + InsertById(cs[1..], c)
  }

  /** sort.Slice on the id. */
  function SortById(cs: seq<CaseRecord>): seq<CaseRecord> {
    if cs == [] then [] else InsertById(SortById(cs[1..]), cs[0])
  }

  /** What a list of entries means: the map from id to entry. */
  ghost function AsMap(cs: seq<CaseRecord>): map<CaseId, Entry> {
    map c <- cs :: c.id := (assert Find(cs, c.id).Some? by { FindSome(cs, c); } Find(cs, c.id).value)
  }

  lemma {:induction false} FindSome(cs: seq<CaseRecord>, c: CaseRecord)
    requires c in cs
    ensures Find(cs, c.id).Some?
  {
    if cs[0].id != c.id {
      FindSome(cs[1..], c);
    }
  }

  lemma {:induction false} FindDistinct(cs: seq<CaseRecord>, k: nat)
    requires DistinctIds(cs) && k < |cs|
    ensures Find(cs, cs[k].id) == Some(cs[k].entry)
  {
    if k != 0 {
      FindDistinct(cs[1..], k - 1);
    }
  }

  lemma {:induction false} WithoutMembers(cs: seq<CaseRecord>, id: CaseId)
    ensures forall c :: c in Without(cs, id) <==> c in cs && c.id != id
    ensures DistinctIds(cs) ==> DistinctIds(Without(cs, id))
  {
    if cs != [] {
      WithoutMembers(cs[..|cs| - 1], id);
      assert cs == cs[..|cs| - 1] + [cs[|cs| - 1]];
    }
  }

  lemma {:induction false} InsertSorted(cs: seq<CaseRecord>, c: CaseRecord)
    requires SortedById(cs) && forall x :: x in cs ==> x.id != c.id
    ensures SortedById(InsertById(cs, c))
    ensures forall x :: x in InsertById(cs, c) <==> x in cs || x == c
  {
    if cs != [] && c.id > cs[0].id {
      InsertSorted(cs[1..], c);
      assert cs == [cs[0]] + cs[1..];
      var t := InsertById(cs[1..], c);
      assert forall i :: 0 <= i < |t| ==> t[i] in cs[1..] || t[i] == c;
    }
  }

  lemma {:induction false} SortSorts(cs: seq<CaseRecord>)
    requires DistinctIds(cs)
    ensures SortedById(SortById(cs))
    ensures forall x :: x in SortById(cs) <==> x in cs
  {
    if cs != [] {
      SortSorts(cs[1..]);
      InsertSorted(SortById(cs[1..]), cs[0]);
      assert cs == [cs[0]] + cs[1..];
    }
  }

  /** On distinct ids, what a list means at an id is the entry it holds. */
  lemma MeansEntries(cs: seq<CaseRecord>)
    requires DistinctIds(cs)
    ensures forall c :: c in cs ==> c.id in AsMap(cs) && AsMap(cs)[c.id] == c.entry
    ensures forall id :: id in AsMap(cs) ==> CaseRecord(id, AsMap(cs)[id]) in cs
  {
    forall c | c in cs
      ensures Find(cs, c.id) == Some(c.entry)
    {
      var i :| 0 <= i < |cs| && cs[i] == c;
      FindDistinct(cs, i);
    }
  }

  /** Two lists of distinct ids with the same entries mean the same map. */
  lemma SameEntriesSameMap(a: seq<CaseRecord>, b: seq<CaseRecord>)
    requires DistinctIds(a) && DistinctIds(b)
    requires forall c :: c in a <==> c in b
    ensures AsMap(a) == AsMap(b)
  {
    MeansEntries(a);
    MeansEntries(b);
  }

  /** withCase: on a list with at most one entry per id, the new entry replaces
      or joins the others and the list comes back sorted, so what it means is
      one map update. */
  method WithCase(cases: seq<CaseRecord>, c: CaseRecord) returns (out: seq<CaseRecord>)
    requires DistinctIds(cases)
    ensures SortedById(out)
    ensures AsMap(out) == AsMap(cases)[c.id := c.entry]
  {
    out := [];
    for i := 0 to |cases|
      invariant out == Without(cases[..i], c.id)
    {
      assert cases[..i + 1] == cases[..i] + [cases[i]];
      if cases[i].id != c.id {
        out := out + [cases[i]];
      }
    }
    assert cases[..|cases|] == cases;
    WithoutMembers(cases, c.id);
    ghost var kept := out;
    out := out + [c];
    assert DistinctIds(out);
    SortSorts(out);
    ghost var joined := out;
    out := SortById(out);
    SameEntriesSameMap(out, joined);
    JoinedMeansUpdate(cases, kept, c);
  }

  lemma JoinedMeansUpdate(cases: seq<CaseRecord>, kept: seq<CaseRecord>, c: CaseRecord)
    requires DistinctIds(cases) && kept == Without(cases, c.id)
    requires DistinctIds(kept + [c])
    ensures AsMap(kept + [c]) == AsMap(cases)[c.id := c.entry]
  {
    hide AsMap, Find, Without;
    var joined := kept + [c];
    WithoutMembers(cases, c.id);
    MeansEntries(joined);
    MeansEntries(cases);
    assert joined[|kept|] == c;
    forall x | x in cases && x.id != c.id
      ensures x in joined
    {
      assert x in kept;
    }
    forall x | x in joined
      ensures x == c || (x in cases && x.id != c.id)
    {
      if x != c { assert x in kept; }
    }
    var m := AsMap(cases)[c.id := c.entry];
    forall id | id in m
      ensures id in AsMap(joined) && AsMap(joined)[id] == m[id]
    {
      if id != c.id { assert CaseRecord(id, m[id]) in cases; }
    }
    forall id | id in AsMap(joined)
      ensures id in m
    {
      assert CaseRecord(id, AsMap(joined)[id]) in joined;
    }
  }

  // ------------------------------------------------- failed[] and passed[]

  const MAX_PAIRS: nat := 10

  predicate DistinctRevisions(ps: seq<Pair>) {
    forall i, j :: 0 <= i < j < |ps| ==> ps[i].revision != ps[j].revision
  }

  predicate Names(ps: seq<Pair>, revision: Digest) {
    exists i :: 0 <= i < |ps| && ps[i].revision == revision
  }

  /** pairFailed. */
  predicate PairFailed(failed: seq<Pair>, revision: Digest, suite: Suite) {
    Pair(revision, suite) in failed
  }

  /** appendFailed: the oldest goes once the cap is passed. */
  function FailedWith(failed: seq<Pair>, p: Pair): (out: seq<Pair>)
    ensures |out| <= MAX_PAIRS && out != [] && out[|out| - 1] == p
    ensures |failed| < MAX_PAIRS ==> failed <= out && |out| == |failed| + 1
    ensures |failed| >= MAX_PAIRS ==> out[..|out| - 1] == failed[|failed| - 9..] && |out| == 10
  {
    var all := failed + [p];
    if |all| > MAX_PAIRS then all[|all| - MAX_PAIRS..] else all
  }

  function Dropping(ps: seq<Pair>, revision: Digest): seq<Pair> {
    if ps == [] then []
    else if ps[|ps| - 1].revision == revision then Dropping(ps[..|ps| - 1], revision)
    else Dropping(ps[..|ps| - 1], revision) + [ps[|ps| - 1]]
  }

  /** The oldest entry whose revision is not active, or |ps|. */
  function OldestOther(ps: seq<Pair>, active: Digest): (i: nat)
    ensures i <= |ps|
    ensures i < |ps| ==> ps[i].revision != active
    ensures forall j :: 0 <= j < i ==> ps[j].revision == active
  {
    if ps == [] then 0
    else if ps[0].revision != active then 0
    else OldestOther(ps[1..], active) + 1
  }

  /** One turn of appendPassed's outer loop: its inner loop evicts the oldest
      entry that is not the active revision's, and evicts nothing when there is none. */
  function EvictOnce(ps: seq<Pair>, active: Digest): seq<Pair> {
    var i := OldestOther(ps, active);
    if i < |ps| then ps[..i] + ps[i + 1..] else ps
  }

  function EvictTurns(ps: seq<Pair>, active: Digest, turns: nat): seq<Pair> {
    if turns == 0 then ps else EvictTurns(EvictOnce(ps, active), active, turns - 1)
  }

  function CountOf(ps: seq<Pair>, revision: Digest): nat {
    if ps == [] then 0
    else (if ps[0].revision == revision then 1 else 0) + CountOf(ps[1..], revision)
  }

  lemma {:induction false} CountConcat(a: seq<Pair>, b: seq<Pair>, revision: Digest)
    ensures CountOf(a + b, revision) == CountOf(a, revision) + CountOf(b, revision)
  {
    if a == [] {
      assert a + b == b;
    } else {
      CountConcat(a[1..], b, revision);
      assert (a + b)[1..] == a[1..] + b;
    }
  }

  lemma {:induction false} CountAll(ps: seq<Pair>, revision: Digest)
    ensures CountOf(ps, revision) <= |ps|
    ensures CountOf(ps, revision) == |ps| <==> forall i :: 0 <= i < |ps| ==> ps[i].revision == revision
  {
    if ps != [] {
      CountAll(ps[1..], revision);
      assert ps == [ps[0]] + ps[1..];
    }
  }

  /** A turn keeps every entry of the active revision, and shrinks the list
      exactly when something else is in it. */
  lemma EvictOnceCounts(ps: seq<Pair>, active: Digest)
    ensures CountOf(EvictOnce(ps, active), active) == CountOf(ps, active)
    ensures |EvictOnce(ps, active)| == if CountOf(ps, active) < |ps| then |ps| - 1 else |ps|
  {
    var i := OldestOther(ps, active);
    CountAll(ps, active);
    if i < |ps| {
      assert ps == ps[..i] + ([ps[i]] + ps[i + 1..]);
      CountConcat(ps[..i], [ps[i]] + ps[i + 1..], active);
      CountConcat([ps[i]], ps[i + 1..], active);
      CountConcat(ps[..i], ps[i + 1..], active);
    }
  }

  lemma {:induction false} EvictTurnsCounts(ps: seq<Pair>, active: Digest, turns: nat)
    ensures CountOf(EvictTurns(ps, active, turns), active) == CountOf(ps, active)
    ensures |EvictTurns(ps, active, turns)| ==
            if |ps| - turns >= CountOf(ps, active) then |ps| - turns else CountOf(ps, active)
    decreases turns
  {
    hide EvictOnce, CountOf;
    CountAll(ps, active);
    if turns != 0 {
      EvictOnceCounts(ps, active);
      EvictTurnsCounts(EvictOnce(ps, active), active, turns - 1);
    }
  }

  /** What appendPassed's eviction starts from: the revision's old entry gone, the new one last. */
  function Appended(passed: seq<Pair>, p: Pair): seq<Pair> {
    Dropping(passed, p.revision) + [p]
  }

  lemma {:induction false} CountDropping(ps: seq<Pair>, dropped: Digest, revision: Digest)
    ensures CountOf(Dropping(ps, dropped), revision) == if revision == dropped then 0 else CountOf(ps, revision)
  {
    if ps != [] {
      var front, last := ps[..|ps| - 1], ps[|ps| - 1];
      CountDropping(front, dropped, revision);
      assert ps == front + [last];
      CountConcat(front, [last], revision);
      CountConcat(Dropping(front, dropped), [last], revision);
    }
  }

  /** At most ten entries of the active revision, counted before the call. */
  predicate Returns(passed: seq<Pair>, p: Pair, active: Digest) {
    p.revision == active || CountOf(passed, active) <= MAX_PAIRS
  }

  lemma AppendedCounts(passed: seq<Pair>, p: Pair, active: Digest)
    ensures CountOf(Appended(passed, p), active) <= MAX_PAIRS <==> Returns(passed, p, active)
  {
    CountDropping(passed, p.revision, active);
    CountConcat(Dropping(passed, p.revision), [p], active);
  }

  /** appendPassed does not stop on every input: its outer loop comes to an end
      exactly when the new entry is the active revision's, or at most ten
      entries of the list it is given are. */
  lemma EvictionEndsExactlyWhen(passed: seq<Pair>, p: Pair, active: Digest)
    ensures (exists turns: nat :: |EvictTurns(Appended(passed, p), active, turns)| <= MAX_PAIRS) <==>
            Returns(passed, p, active)
  {
    var ps := Appended(passed, p);
    AppendedCounts(passed, p, active);
    forall turns: nat
      ensures |EvictTurns(ps, active, turns)| <= MAX_PAIRS ==> CountOf(ps, active) <= MAX_PAIRS
    {
      EvictTurnsCounts(ps, active, turns);
    }
    EvictTurnsCounts(ps, active, |ps|);
    assert CountOf(ps, active) <= MAX_PAIRS ==> |EvictTurns(ps, active, |ps|)| <= MAX_PAIRS;
  }

  /** An input appendPassed never returns from: eleven entries of the active
      revision, and a new one of another. */
  lemma EvictionCanRunForever(a: Pair, p: Pair)
    requires p.revision != a.revision
    ensures var passed := [a, a, a, a, a, a, a, a, a, a, a];
            forall turns: nat :: |EvictTurns(Appended(passed, p), a.revision, turns)| > MAX_PAIRS
  {
    var passed := [a, a, a, a, a, a, a, a, a, a, a];
    CountAll(passed, a.revision);
    EvictionEndsExactlyWhen(passed, p, a.revision);
  }

  /** The stored list's own cap of ten excludes it. */
  lemma EvictionEndsWithinTheCap(passed: seq<Pair>, p: Pair, active: Digest)
    requires |passed| <= MAX_PAIRS
    ensures exists turns: nat :: |EvictTurns(Appended(passed, p), active, turns)| <= MAX_PAIRS
  {
    CountAll(passed, active);
    EvictionEndsExactlyWhen(passed, p, active);
  }

  /** Where the eviction ends. */
  function Evicted(ps: seq<Pair>, active: Digest): (out: seq<Pair>)
    decreases |ps|
  {
    var i := OldestOther(ps, active);
    if |ps| <= MAX_PAIRS || i == |ps| then ps else Evicted(ps[..i] + ps[i + 1..], active)
  }

  /** appendPassed: p as the newest entry, its revision's old one gone. */
  function PassedWith(passed: seq<Pair>, p: Pair, active: Digest): seq<Pair> {
    Evicted(Appended(passed, p), active)
  }

  lemma {:induction false} DroppingMembers(ps: seq<Pair>, revision: Digest)
    ensures forall p :: p in Dropping(ps, revision) <==> p in ps && p.revision != revision
    ensures |Dropping(ps, revision)| <= |ps|
    ensures DistinctRevisions(ps) ==> DistinctRevisions(Dropping(ps, revision))
  {
    if ps != [] {
      var front, last := ps[..|ps| - 1], ps[|ps| - 1];
      DroppingMembers(front, revision);
      assert ps == front + [last];
      if DistinctRevisions(ps) && last.revision != revision {
        DistinctExtends(ps, Dropping(front, revision));
      }
    }
  }

  lemma DistinctExtends(ps: seq<Pair>, kept: seq<Pair>)
    requires ps != [] && DistinctRevisions(ps) && DistinctRevisions(kept)
    requires forall p :: p in kept ==> p in ps[..|ps| - 1]
    ensures DistinctRevisions(kept + [ps[|ps| - 1]])
  {
    forall i | 0 <= i < |kept|
      ensures kept[i].revision != ps[|ps| - 1].revision
    {
      assert kept[i] in kept;
    }
  }

  /** removePassed. */
  method RemovePassed(passed: seq<Pair>, revision: Digest) returns (out: seq<Pair>)
    ensures out == Dropping(passed, revision)
    ensures !Names(out, revision)
    ensures forall p :: p in passed && p.revision != revision ==> p in out
  {
    out := [];
    for i := 0 to |passed|
      invariant out == Dropping(passed[..i], revision)
    {
      assert passed[..i + 1] == passed[..i] + [passed[i]];
      if passed[i].revision != revision {
        out := out + [passed[i]];
      }
    }
    assert passed[..|passed|] == passed;
    DroppingMembers(passed, revision);
    assert forall i :: 0 <= i < |out| ==> out[i] in out;
  }

  /** appendPassed's inner loop: the oldest entry that is not the active revision's goes. */
  method EvictOldest(ps: seq<Pair>, active: Digest) returns (out: seq<Pair>)
    requires OldestOther(ps, active) < |ps|
    ensures out == EvictOnce(ps, active)
  {
    var i := 0;
    while ps[i].revision == active
      invariant i <= OldestOther(ps, active)
      decreases |ps| - i
    {
      i := i + 1;
    }
    out := ps[..i] + ps[i + 1..];
  }

  /** Over the cap, a turn changes nothing about where the eviction ends. */
  lemma EvictOnceLeads(ps: seq<Pair>, active: Digest)
    requires |ps| > MAX_PAIRS && CountOf(ps, active) <= MAX_PAIRS
    ensures OldestOther(ps, active) < |ps|
    ensures Evicted(EvictOnce(ps, active), active) == Evicted(ps, active)
    ensures |EvictOnce(ps, active)| == |ps| - 1 && CountOf(EvictOnce(ps, active), active) == CountOf(ps, active)
  {
    EvictOnceCounts(ps, active);
    CountAll(ps, active);
  }

  /** appendPassed, on the inputs it returns from. */
  method AppendPassed(passed: seq<Pair>, p: Pair, active: Digest) returns (out: seq<Pair>)
    requires Returns(passed, p, active)
    ensures out == PassedWith(passed, p, active)
    ensures |out| <= MAX_PAIRS
  {
    hide Dropping, EvictOnce, CountOf, OldestOther, Returns;
    AppendedCounts(passed, p, active);
    out := RemovePassed(passed, p.revision);
    out := out + [p];
    ghost var start := out;
    while |out| > MAX_PAIRS
      invariant Evicted(out, active) == Evicted(start, active)
      invariant CountOf(out, active) == CountOf(start, active)
    {
      EvictOnceLeads(out, active);
      out := EvictOldest(out, active);
    }
  }

  /** The bounded history of passes: from a list with one entry per revision
      and at most ten of them, the new entry is the newest, the list stays
      within both bounds, nothing but the oldest inactive entry and the
      revision's own old one leaves it, and the active revision's never does. */
  lemma PassedHistory(passed: seq<Pair>, p: Pair, active: Digest)
    requires DistinctRevisions(passed) && |passed| <= MAX_PAIRS
    ensures var out := PassedWith(passed, p, active);
            && DistinctRevisions(out)
            && |out| <= MAX_PAIRS
            && out != [] && out[|out| - 1] == p
            && (forall q :: q in out ==> q == p || (q in passed && q.revision != p.revision))
            && (forall q :: q in passed && q.revision == active && active != p.revision ==> q in out)
            && (|passed| < MAX_PAIRS ==> forall q :: q in passed && q.revision != p.revision ==> q in out)
            && (forall k :: 0 <= k < |passed| && passed[k] !in out && passed[k].revision != p.revision ==>
                  forall j :: 0 <= j < k ==> passed[j].revision == p.revision || passed[j].revision == active)
  {
    var kept := Dropping(passed, p.revision);
    DroppingMembers(passed, p.revision);
    var all := kept + [p];
    assert DistinctRevisions(all) by {
      forall i, j | 0 <= i < j < |all| ensures all[i].revision != all[j].revision {
        if j == |kept| { assert all[i] in kept; }
      }
    }
    DistinctCountsOnce(all, active);
    if |all| > MAX_PAIRS {
      EvictsOldest(all, active);
      forall k | 0 <= k < |passed| && passed[k] !in Evicted(all, active) && passed[k].revision != p.revision
        ensures forall j :: 0 <= j < k ==> passed[j].revision == p.revision || passed[j].revision == active
      {
        LeavesFirst(passed, p, active, k);
      }
    }
  }

  /** What leaves to make room is the first entry of another, inactive revision. */
  lemma LeavesFirst(passed: seq<Pair>, p: Pair, active: Digest, k: nat)
    requires DistinctRevisions(passed) && DistinctRevisions(Appended(passed, p))
    requires |Appended(passed, p)| == MAX_PAIRS + 1
    requires k < |passed| && passed[k] !in Evicted(Appended(passed, p), active) && passed[k].revision != p.revision
    ensures forall j :: 0 <= j < k ==> passed[j].revision == p.revision || passed[j].revision == active
  {
    hide Dropping, Evicted;
    var all, kept := Appended(passed, p), Dropping(passed, p.revision);
    DroppingMembers(passed, p.revision);
    assert passed[k] in kept;
    assert passed[k] in all;
    EvictsOldest(all, active);
    var m := LeastOther(passed, p.revision, active, k);
    OldestOfDropped(passed, p.revision, active, m);
    OldestStays(kept, p, active);
    WithoutOne(all, OldestOther(all, active));
    assert passed[k] == passed[m];
  }

  lemma {:induction false} LeastOther(ps: seq<Pair>, revision: Digest, active: Digest, k: nat) returns (m: nat)
    requires k < |ps| && ps[k].revision != revision && ps[k].revision != active
    ensures m <= k && ps[m].revision != revision && ps[m].revision != active
    ensures forall j :: 0 <= j < m ==> ps[j].revision == revision || ps[j].revision == active
    decreases k
  {
    if j :| 0 <= j < k && ps[j].revision != revision && ps[j].revision != active {
      m := LeastOther(ps, revision, active, j);
    } else {
      m := k;
    }
  }

  lemma OldestStays(ps: seq<Pair>, p: Pair, active: Digest)
    requires OldestOther(ps, active) < |ps|
    ensures OldestOther(ps + [p], active) == OldestOther(ps, active)
  {
    var i, j := OldestOther(ps, active), OldestOther(ps + [p], active);
    assert (ps + [p])[i] == ps[i];
    assert forall k :: 0 <= k < |ps| ==> (ps + [p])[k] == ps[k];
    assert !(i < j) && !(j < i);
  }

  /** Dropping a revision keeps the order of the others. */
  lemma {:induction false} OldestOfDropped(ps: seq<Pair>, revision: Digest, active: Digest, m: nat)
    requires m < |ps| && ps[m].revision != revision && ps[m].revision != active
    requires forall j :: 0 <= j < m ==> ps[j].revision == revision || ps[j].revision == active
    ensures var kept := Dropping(ps, revision);
            OldestOther(kept, active) < |kept| && kept[OldestOther(kept, active)] == ps[m]
  {
    hide OldestOther;
    var front, last := ps[..|ps| - 1], ps[|ps| - 1];
    var kept := Dropping(front, revision);
    if m < |front| {
      OldestOfDropped(front, revision, active, m);
      OldestStays(kept, last, active);
    } else {
      DroppingMembers(front, revision);
      forall i | 0 <= i < |kept|
        ensures kept[i].revision == active
      {
        assert kept[i] in kept;
      }
      OldestIsLast(kept, last, active);
    }
  }

  lemma OldestIsLast(ps: seq<Pair>, p: Pair, active: Digest)
    requires p.revision != active && forall i :: 0 <= i < |ps| ==> ps[i].revision == active
    ensures OldestOther(ps + [p], active) == |ps|
  {
    assert (ps + [p])[|ps|] == p;
    assert forall i :: 0 <= i < |ps| ==> (ps + [p])[i] == ps[i];
  }

  /** With one entry per revision and one entry too many, one turn evicts one
      of the two oldest, and nothing else moves. */
  lemma EvictsOldest(all: seq<Pair>, active: Digest)
    requires DistinctRevisions(all) && |all| == MAX_PAIRS + 1
    ensures var i := OldestOther(all, active);
            && i <= 1
            && Evicted(all, active) == all[..i] + all[i + 1..]
    ensures DistinctRevisions(Evicted(all, active))
    ensures forall q :: q in Evicted(all, active) ==> q in all
    ensures forall q :: q in all && q.revision == active ==> q in Evicted(all, active)
  {
    hide OldestOther, Evicted, DistinctRevisions;
    OldestIsEarly(all, active);
    EvictedAtOnce(all, active);
    WithoutOne(all, OldestOther(all, active));
  }

  lemma OldestIsEarly(all: seq<Pair>, active: Digest)
    requires DistinctRevisions(all) && |all| >= 2
    ensures OldestOther(all, active) <= 1
    ensures all[OldestOther(all, active)].revision != active
  {
    assert all[0].revision != all[1].revision;
  }

  lemma EvictedAtOnce(all: seq<Pair>, active: Digest)
    requires |all| == MAX_PAIRS + 1 && OldestOther(all, active) < |all|
    ensures var i := OldestOther(all, active); Evicted(all, active) == all[..i] + all[i + 1..]
  {
  }

  /** A list less one of its entries. */
  lemma WithoutOne(all: seq<Pair>, i: nat)
    requires DistinctRevisions(all) && i < |all|
    ensures var out := all[..i] + all[i + 1..];
            && DistinctRevisions(out)
            && (forall q :: q in out ==> q in all)
            && (forall q :: q in all && q != all[i] ==> q in out)
  {
    var out := all[..i] + all[i + 1..];
    assert forall a :: 0 <= a < |out| ==> out[a] == all[if a < i then a else a + 1];
    forall q | q in all && q != all[i]
      ensures q in out
    {
      var k :| 0 <= k < |all| && all[k] == q;
      assert out[if k < i then k else k - 1] == q;
    }
  }

  lemma {:induction false} DistinctCountsOnce(ps: seq<Pair>, revision: Digest)
    requires DistinctRevisions(ps)
    ensures CountOf(ps, revision) <= 1
  {
    if ps != [] {
      DistinctCountsOnce(ps[1..], revision);
      if ps[0].revision == revision {
        NotNamedCountsNone(ps[1..], revision);
      }
    }
  }

  lemma {:induction false} NotNamedCountsNone(ps: seq<Pair>, revision: Digest)
    requires forall i :: 0 <= i < |ps| ==> ps[i].revision != revision
    ensures CountOf(ps, revision) == 0
  {
    if ps != [] {
      NotNamedCountsNone(ps[1..], revision);
    }
  }
}
