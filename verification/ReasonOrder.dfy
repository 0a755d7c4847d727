/**
 Which reason leads PolicyApplyIncomplete, and which one Ready is withheld for,
 when one pass raises several: raiseIncomplete and withholdInOrder.
 */
module ReasonOrder {
  import opened Types

  datatype Reason =
    | AuthPolicyMissing | ForeignTrafficPolicy | GatewayAuthPolicy
    | ServingRouteNotAccepted | AuthPolicyNotAttached | APIKeySourceEmpty
    | Unranked(name: string)

  const INCOMPLETE_ORDER: seq<Reason> :=
    [AuthPolicyMissing, ForeignTrafficPolicy, GatewayAuthPolicy,
     ServingRouteNotAccepted, AuthPolicyNotAttached, APIKeySourceEmpty]

  function Name(r: Reason): string {
    match r
    case AuthPolicyMissing => "AuthPolicyMissing"
    case ForeignTrafficPolicy => "ForeignTrafficPolicy"
    case GatewayAuthPolicy => "GatewayAuthPolicy"
    case ServingRouteNotAccepted => "ServingRouteNotAccepted"
    case AuthPolicyNotAttached => "AuthPolicyNotAttached"
    case APIKeySourceEmpty => "APIKeySourceEmpty"
    case Unranked(name) => name
  }

  function Rank(r: Reason): int {
    match r
    case AuthPolicyMissing => 0
    case ForeignTrafficPolicy => 1
    case GatewayAuthPolicy => 2
    case ServingRouteNotAccepted => 3
    case AuthPolicyNotAttached => 4
    case APIKeySourceEmpty => 5
    case Unranked(_) => -1
  }

  /** incompleteRank: the place in the order, or -1. */
  method IncompleteRank(r: Reason) returns (rank: int)
    ensures rank == Rank(r)
    ensures rank >= 0 ==> rank < |INCOMPLETE_ORDER| && INCOMPLETE_ORDER[rank] == r
    ensures rank < 0 <==> r !in INCOMPLETE_ORDER
  {
    for i := 0 to |INCOMPLETE_ORDER|
      invariant forall j :: 0 <= j < i ==> INCOMPLETE_ORDER[j] != r
    {
      if INCOMPLETE_ORDER[i] == r {
        return i;
      }
    }
    assert r == Unranked(Name(r)) by {
      assert INCOMPLETE_ORDER[0] == AuthPolicyMissing && INCOMPLETE_ORDER[1] == ForeignTrafficPolicy;
      assert INCOMPLETE_ORDER[2] == GatewayAuthPolicy && INCOMPLETE_ORDER[3] == ServingRouteNotAccepted;
      assert INCOMPLETE_ORDER[4] == AuthPolicyNotAttached && INCOMPLETE_ORDER[5] == APIKeySourceEmpty;
    }
    return -1;
  }

  datatype Raised = Raised(reason: Reason, message: string)

  /** A new reason takes the lead from a ranked one it comes before, and from no other. */
  predicate TakesLead(r: Reason, lead: Reason) {
    Rank(r) >= 0 && Rank(lead) > Rank(r)
  }

  /** raiseIncomplete: the condition keeps every message, the lead's first. */
  function Raise(c: Option<Raised>, r: Raised): Raised {
    if c.None? then r
    else if TakesLead(r.reason, c.value.reason) then
      Raised(r.reason, r.message + Separator(c.value.reason) + c.value.message)
    else Raised(c.value.reason, c.value.message + Separator(r.reason) + r.message)
  }

  function Separator(r: Reason): string { " | " + Name(r) + ": " }

  /** withholdInOrder: Ready is withheld for the lead alone. */
  function Withhold(w: Option<Raised>, r: Raised): Raised {
    if w.None? || TakesLead(r.reason, w.value.reason) then r else w.value
  }

  function RaiseAll(rs: seq<Raised>): Raised
    requires rs != []
  {
    Raise(if |rs| == 1 then None else Some(RaiseAll(rs[..|rs| - 1])), rs[|rs| - 1])
  }

  function WithholdAll(rs: seq<Raised>): Raised
    requires rs != []
  {
    Withhold(if |rs| == 1 then None else Some(WithholdAll(rs[..|rs| - 1])), rs[|rs| - 1])
  }

  /** The lead of what a pass raised: its first reason if that one is unranked,
      and otherwise the ranked reason of least rank. */
  predicate Leads(rs: seq<Raised>, lead: Reason)
    requires rs != []
  {
    if Rank(rs[0].reason) < 0 then lead == rs[0].reason
    else
      && Rank(lead) >= 0
      && (exists i :: 0 <= i < |rs| && rs[i].reason == lead)
      && (forall i :: 0 <= i < |rs| && Rank(rs[i].reason) >= 0 ==> Rank(lead) <= Rank(rs[i].reason))
  }

  lemma {:induction false} RaiseLeads(rs: seq<Raised>)
    requires rs != []
    ensures Leads(rs, RaiseAll(rs).reason)
  {
    if |rs| > 1 {
      var front := rs[..|rs| - 1];
      RaiseLeads(front);
      LeadGoesOn(rs, RaiseAll(front).reason);
    }
  }

  lemma {:induction false} WithholdLeads(rs: seq<Raised>)
    requires rs != []
    ensures Leads(rs, WithholdAll(rs).reason)
    ensures WithholdAll(rs) in rs
  {
    if |rs| > 1 {
      var front := rs[..|rs| - 1];
      WithholdLeads(front);
      LeadGoesOn(rs, WithholdAll(front).reason);
    }
  }

  /** One more reason, and the lead that follows from the one before. */
  lemma LeadGoesOn(rs: seq<Raised>, lead: Reason)
    requires |rs| > 1 && Leads(rs[..|rs| - 1], lead)
    ensures var r := rs[|rs| - 1].reason; Leads(rs, if TakesLead(r, lead) then r else lead)
  {
    var front, r := rs[..|rs| - 1], rs[|rs| - 1].reason;
    assert forall i :: 0 <= i < |front| ==> front[i] == rs[i];
    if Rank(rs[0].reason) >= 0 {
      var i :| 0 <= i < |front| && front[i].reason == lead;
      assert rs[i].reason == lead;
      assert rs[|rs| - 1].reason == r;
    }
  }

  /** A rank names its reason, so there is one lead. */
  lemma OneLead(rs: seq<Raised>, a: Reason, b: Reason)
    requires rs != [] && Leads(rs, a) && Leads(rs, b)
    ensures a == b
  {
    if Rank(rs[0].reason) >= 0 {
      assert Rank(a) == Rank(b);
    }
  }

  /** Both folds agree on the lead. */
  lemma BothAgree(rs: seq<Raised>)
    requires rs != []
    ensures RaiseAll(rs).reason == WithholdAll(rs).reason
  {
    RaiseLeads(rs);
    WithholdLeads(rs);
    OneLead(rs, RaiseAll(rs).reason, WithholdAll(rs).reason);
  }

  /** The order the reasons are raised in does not matter, as long as neither
      order starts with an unranked one. */
  lemma OrderIndependent(a: seq<Raised>, b: seq<Raised>)
    requires a != [] && b != [] && multiset(a) == multiset(b)
    requires Rank(a[0].reason) >= 0 && Rank(b[0].reason) >= 0
    ensures RaiseAll(a).reason == RaiseAll(b).reason && WithholdAll(a).reason == WithholdAll(b).reason
  {
    RaiseLeads(a);
    RaiseLeads(b);
    var lead := RaiseAll(a).reason;
    assert Leads(b, lead) by {
      var i :| 0 <= i < |a| && a[i].reason == lead;
      assert a[i] in multiset(b);
      assert a[i] in b;
      forall j | 0 <= j < |b| && Rank(b[j].reason) >= 0
        ensures Rank(lead) <= Rank(b[j].reason)
      {
        assert b[j] in multiset(a);
        assert b[j] in a;
      }
    }
    OneLead(b, lead, RaiseAll(b).reason);
    BothAgree(a);
    BothAgree(b);
  }

  predicate PartAt(s: string, part: string, i: nat) {
    i + |part| <= |s| && s[i..i + |part|] == part
  }

  predicate Contains(s: string, part: string) {
    exists i :: 0 <= i <= |s| && PartAt(s, part, i)
  }

  lemma ContainedIn(before: string, s: string, after: string, part: string)
    requires Contains(s, part)
    ensures Contains(before + s + after, part)
  {
    var i :| 0 <= i <= |s| && PartAt(s, part, i);
    var whole, k := before + s + after, |before| + i;
    assert whole[k..k + |part|] == s[i..i + |part|];
    assert PartAt(whole, part, k);
  }

  lemma JoinKeeps(first: string, separator: string, second: string, part: string)
    requires Contains(first, part) || Contains(second, part)
    ensures Contains(first + separator + second, part)
  {
    if Contains(first, part) {
      ContainedIn("", first, separator + second, part);
      assert first + separator + second == "" + first + (separator + second);
    } else {
      ContainedIn(first + separator, second, "", part);
      assert first + separator + second == (first + separator) + second + "";
    }
  }

  /** Raising one more reason keeps what the condition said, and says the new one too. */
  lemma RaiseKeeps(c: Raised, r: Raised, part: string)
    requires Contains(c.message, part) || part == r.message
    ensures Contains(Raise(Some(c), r).message, part)
  {
    hide Separator;
    assert part == r.message ==> PartAt(r.message, part, 0);
    if TakesLead(r.reason, c.reason) {
      JoinKeeps(r.message, Separator(c.reason), c.message, part);
    } else {
      JoinKeeps(c.message, Separator(r.reason), r.message, part);
    }
  }

  /** The condition's message loses nothing: every message raised is in it. */
  lemma {:induction false} NothingLost(rs: seq<Raised>, k: nat)
    requires k < |rs|
    ensures Contains(RaiseAll(rs).message, rs[k].message)
  {
    hide Contains, Raise;
    if |rs| == 1 {
      AloneKeeps(rs[0]);
    } else {
      var front := rs[..|rs| - 1];
      if k < |front| {
        NothingLost(front, k);
        assert front[k] == rs[k];
      }
      RaiseKeeps(RaiseAll(front), rs[|rs| - 1], rs[k].message);
    }
  }

  /** The condition speaks first of what Ready is withheld for, in its words. */
  lemma {:induction false} LeadSpeaksFirst(rs: seq<Raised>)
    requires rs != []
    ensures WithholdAll(rs).message <= RaiseAll(rs).message
  {
    hide Separator;
    if |rs| > 1 {
      var front := rs[..|rs| - 1];
      LeadSpeaksFirst(front);
      BothAgree(front);
    }
  }

  function Named(r: Raised): string { " | " + Name(r.reason) + ": " + r.message }

  /** One more reason: the one that does not lead comes under its name. */
  lemma RaiseNames(c: Raised, lead: Raised, r: Raised, one: Raised)
    requires c.reason == lead.reason && lead.message <= c.message
    requires one == r || one == lead || Contains(c.message, Named(one))
    ensures one == Withhold(Some(lead), r) || Contains(Raise(Some(c), r).message, Named(one))
  {
    hide Contains, Name, Rank;
    if TakesLead(r.reason, c.reason) {
      if one == lead {
        var rest := c.message[|one.message|..];
        NamedAt(r.message, Named(one), rest);
        assert c.message == one.message + rest;
        assert Raise(Some(c), r).message == r.message + Named(one) + rest;
      } else if one != r {
        JoinKeeps(r.message, Separator(c.reason), c.message, Named(one));
      }
    } else if Contains(c.message, Named(one)) {
      JoinKeeps(c.message, Separator(r.reason), r.message, Named(one));
    } else if one != lead {
      NamedAt(c.message, Named(one), "");
      assert Raise(Some(c), r).message == c.message + Named(one) + "";
    }
  }

  /** Every raised reason but the lead is named before its message. */
  lemma {:induction false} EachIsNamed(rs: seq<Raised>, k: nat)
    requires k < |rs|
    ensures rs[k] == WithholdAll(rs) || Contains(RaiseAll(rs).message, Named(rs[k]))
  {
    hide Contains, Raise, Withhold, Named;
    if |rs| == 1 {
      FirstLeads(rs[0]);
    } else {
      var front := rs[..|rs| - 1];
      BothAgree(front);
      LeadSpeaksFirst(front);
      if k < |front| {
        EachIsNamed(front, k);
        assert front[k] == rs[k];
      }
      RaiseNames(RaiseAll(front), WithholdAll(front), rs[|rs| - 1], rs[k]);
    }
  }

  lemma FirstLeads(r: Raised)
    ensures Withhold(None, r) == r
  {
  }

  lemma NamedAt(before: string, part: string, after: string)
    ensures Contains(before + part + after, part)
  {
    assert PartAt(part, part, 0);
    ContainedIn(before, part, after, part);
  }

  lemma AloneKeeps(r: Raised)
    ensures Contains(Raise(None, r).message, r.message)
  {
    assert PartAt(r.message, r.message, 0);
  }
}
