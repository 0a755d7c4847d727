/**
 A run's record: which case is next, what recording an outcome writes, and the
 verdict that goes with the last one.
 */
module EvalRecord {
  import opened Types
  import opened EvalLists

  predicate Recorded(cases: map<CaseId, Entry>, id: CaseId) {
    id in cases && cases[id].outcome != Sending
  }

  predicate AllRecorded(ids: seq<CaseId>, cases: map<CaseId, Entry>) {
    forall i :: 0 <= i < |ids| ==> Recorded(cases, ids[i])
  }

  function Done(ids: seq<CaseId>, cases: map<CaseId, Entry>): nat {
    if ids == [] then 0
    else Done(ids[..|ids| - 1], cases) + if Recorded(cases, ids[|ids| - 1]) then 1 else 0
  }

  function Passing(ids: seq<CaseId>, cases: map<CaseId, Entry>): nat {
    if ids == [] then 0
    else Passing(ids[..|ids| - 1], cases) +
         if ids[|ids| - 1] in cases && cases[ids[|ids| - 1]].outcome == CasePassed then 1 else 0
  }

  lemma {:induction false} DoneIsAll(ids: seq<CaseId>, cases: map<CaseId, Entry>)
    ensures Done(ids, cases) <= |ids|
    ensures Done(ids, cases) == |ids| <==> AllRecorded(ids, cases)
  {
    if ids != [] {
      DoneIsAll(ids[..|ids| - 1], cases);
      assert ids == ids[..|ids| - 1] + [ids[|ids| - 1]];
    }
  }

  /** evalsuite.Passes: integer thousandths, and no cases is no pass. */
  predicate Passes(passed: nat, total: nat, threshold: nat) {
    total > 0 && passed * 1000 >= threshold * total
  }

  /** It is the fraction passed against the threshold as a fraction, with no rounding. */
  lemma PassesIsTheFraction(passed: nat, total: nat, threshold: nat)
    ensures Passes(passed, total, threshold) <==>
            total > 0 && passed as real / total as real >= threshold as real / 1000.0
  {
    if total > 0 {
      var p, t, h := passed as real, total as real, threshold as real;
      assert p / t >= h / 1000.0 <==> p * 1000.0 >= h * t by {
        FractionsCompare(p, t, h, 1000.0);
      }
      assert (passed * 1000) as real == p * 1000.0 && (threshold * total) as real == h * t;
    }
  }

  lemma FractionsCompare(a: real, b: real, c: real, d: real)
    requires b > 0.0 && d > 0.0
    ensures a / b >= c / d <==> a * d >= c * b
  {
    var x, y := a / b, c / d;
    assert a == x * b && c == y * d;
    assert a * d - c * b == (x - y) * (b * d);
    assert b * d > 0.0;
    if x >= y {
      assert (x - y) * (b * d) >= 0.0;
    } else {
      assert (y - x) * (b * d) > 0.0;
      assert (x - y) * (b * d) == -((y - x) * (b * d));
    }
  }

  predicate SuitePassed(suite: Suite, cases: map<CaseId, Entry>) {
    && AllRecorded(suite.ids, cases)
    && Passes(Passing(suite.ids, cases), |suite.ids|, suite.threshold)
  }

  /** withOutcome: case `id`'s entry, and with the last one the verdict, its
      pair in failed[] and its revision out of passed[] on a failure. */
  function WithOutcome(e: EvalStatus, revision: Digest, suite: Suite, id: CaseId, entry: Entry): EvalStatus {
    var cases := e.cases[id := entry];
    var e1 := e.(cases := cases);
    if Done(suite.ids, cases) < |suite.ids| then e1
    else if Passes(Passing(suite.ids, cases), |suite.ids|, suite.threshold) then e1.(verdict := Passed)
    else e1.(verdict := Failed,
             failed := FailedWith(e.failed, Pair(revision, suite)),
             passed := Dropping(e.passed, revision))
  }

  method RecordOutcome(e: EvalStatus, revision: Digest, suite: Suite, id: CaseId, entry: Entry)
    returns (out: EvalStatus)
    ensures out == WithOutcome(e, revision, suite, id, entry)
    ensures out.verdict == Failed && e.verdict != Failed ==>
              PairFailed(out.failed, revision, suite) && !Names(out.passed, revision)
    ensures out.verdict == Passed && e.verdict != Passed ==> SuitePassed(suite, out.cases)
  {
    out := e.(cases := e.cases[id := entry]);
    var passed, done := 0, 0;
    for i := 0 to |suite.ids|
      invariant done == Done(suite.ids[..i], out.cases)
      invariant passed == Passing(suite.ids[..i], out.cases)
    {
      assert suite.ids[..i + 1][..i] == suite.ids[..i];
      if Recorded(out.cases, suite.ids[i]) {
        done := done + 1;
        if out.cases[suite.ids[i]].outcome == CasePassed {
          passed := passed + 1;
        }
      }
    }
    assert suite.ids[..|suite.ids|] == suite.ids;
    DoneIsAll(suite.ids, out.cases);
    if done < |suite.ids| {
      return;
    }
    if Passes(passed, |suite.ids|, suite.threshold) {
      out := out.(verdict := Passed);
    } else {
      var kept := RemovePassed(e.passed, revision);
      out := out.(verdict := Failed, failed := FailedWith(e.failed, Pair(revision, suite)), passed := kept);
    }
  }

  /** nextCase's two searches, in id order. */
  function FirstSending(ids: seq<CaseId>, cases: map<CaseId, Entry>): (r: Option<CaseId>)
    ensures r.Some? ==> r.value in ids && r.value in cases && cases[r.value].outcome == Sending
    ensures r.None? ==> forall i :: 0 <= i < |ids| && ids[i] in cases ==> cases[ids[i]].outcome != Sending
  {
    if ids == [] then None
    else if ids[0] in cases && cases[ids[0]].outcome == Sending then Some(ids[0])
    else FirstSending(ids[1..], cases)
  }

  function FirstMissing(ids: seq<CaseId>, cases: map<CaseId, Entry>): (r: Option<CaseId>)
    ensures r.Some? ==> r.value in ids && r.value !in cases
    ensures r.None? ==> forall i :: 0 <= i < |ids| ==> ids[i] in cases
  {
    if ids == [] then None
    else if ids[0] !in cases then Some(ids[0])
    else FirstMissing(ids[1..], cases)
  }

  method FindSending(ids: seq<CaseId>, cases: map<CaseId, Entry>) returns (orphan: Option<CaseId>)
    ensures orphan == FirstSending(ids, cases)
  {
    for i := 0 to |ids|
      invariant FirstSending(ids, cases) == FirstSending(ids[i..], cases)
    {
      if ids[i] in cases && cases[ids[i]].outcome == Sending {
        return Some(ids[i]);
      }
    }
    return None;
  }

  method FindMissing(ids: seq<CaseId>, cases: map<CaseId, Entry>) returns (next: Option<CaseId>)
    ensures next == FirstMissing(ids, cases)
    ensures next.Some? ==>
              exists k :: 0 <= k < |ids| && ids[k] == next.value && forall j :: 0 <= j < k ==> ids[j] in cases
  {
    for i := 0 to |ids|
      invariant FirstMissing(ids, cases) == FirstMissing(ids[i..], cases)
      invariant forall j :: 0 <= j < i ==> ids[j] in cases
    {
      if ids[i] !in cases {
        return Some(ids[i]);
      }
    }
    return None;
  }

  /** A claim found with no outcome comes first; otherwise the least id with no entry. */
  method FindWork(ids: seq<CaseId>, cases: map<CaseId, Entry>)
    returns (orphan: Option<CaseId>, next: Option<CaseId>)
    ensures orphan == FirstSending(ids, cases)
    ensures next == if orphan.None? then FirstMissing(ids, cases) else None
    ensures next.Some? && (forall i, j :: 0 <= i < j < |ids| ==> ids[i] <= ids[j]) ==>
              forall i :: 0 <= i < |ids| && ids[i] < next.value ==> Recorded(cases, ids[i])
  {
    next := None;
    orphan := FindSending(ids, cases);
    if orphan.None? {
      next := FindMissing(ids, cases);
    }
  }

  /** What a run still owes: two for a case with no entry, one for a claim in flight. */
  function Weight(cases: map<CaseId, Entry>, id: CaseId): nat {
    if id !in cases then 2 else if cases[id].outcome == Sending then 1 else 0
  }

  function Owed(ids: seq<CaseId>, cases: map<CaseId, Entry>): nat {
    if ids == [] then 0 else Weight(cases, ids[0]) + Owed(ids[1..], cases)
  }

  /** Each claim and each record brings the run nearer its end. */
  lemma {:induction false} OwedFalls(ids: seq<CaseId>, cases: map<CaseId, Entry>, id: CaseId, entry: Entry)
    requires Weight(cases[id := entry], id) < Weight(cases, id)
    ensures Owed(ids, cases[id := entry]) <= Owed(ids, cases)
    ensures id in ids ==> Owed(ids, cases[id := entry]) < Owed(ids, cases)
  {
    if ids != [] {
      OwedFalls(ids[1..], cases, id, entry);
      assert ids == [ids[0]] + ids[1..];
    }
  }

  lemma {:induction false} OwedNothing(ids: seq<CaseId>, cases: map<CaseId, Entry>)
    ensures Owed(ids, cases) == 0 <==> AllRecorded(ids, cases)
  {
    if ids != [] {
      OwedNothing(ids[1..], cases);
      assert ids == [ids[0]] + ids[1..];
    }
  }
}
