/**
 Ordered teardown: finalize's gateway half, revokeGateway and deleteAuthPolicy.
 Between any two operations the environment may move what it can reach, and a
 delete may be held by somebody's finalizer.
 */
module Teardown {
  import opened Types

  /** `<agent>-serving` is the one route name this operator emits for an Agent. */
  datatype NamedRoute = NamedRoute(serving: bool, route: Route)

  predicate Owned(r: NamedRoute) {
    r.serving && r.route.labelled
  }

  function OwnedOf(rs: seq<NamedRoute>): seq<NamedRoute> {
    if rs == [] then []
    else if Owned(rs[|rs| - 1]) then OwnedOf(rs[..|rs| - 1]) + [rs[|rs| - 1]]
    else OwnedOf(rs[..|rs| - 1])
  }

  predicate NoneOwned(rs: seq<NamedRoute>) {
    forall i :: 0 <= i < |rs| ==> !Owned(rs[i])
  }

  lemma {:induction false} OwnedOfMembers(rs: seq<NamedRoute>)
    ensures forall r :: r in OwnedOf(rs) <==> r in rs && Owned(r)
  {
    if rs != [] {
      OwnedOfMembers(rs[..|rs| - 1]);
      assert rs == rs[..|rs| - 1] + [rs[|rs| - 1]];
    }
  }

  lemma {:induction false} OwnedOfEmpty(rs: seq<NamedRoute>)
    ensures OwnedOf(rs) == [] <==> NoneOwned(rs)
  {
    if rs != [] {
      OwnedOfEmpty(rs[..|rs| - 1]);
      assert rs == rs[..|rs| - 1] + [rs[|rs| - 1]];
    }
  }

  /** The serving route is gone, and no other. */
  ghost predicate Cleared(was: seq<NamedRoute>, now: seq<NamedRoute>) {
    forall r :: r in now <==> r in was && !r.serving
  }

  /** What the environment makes of the namespace, where it may: it forges no UID label. */
  datatype Move = Move(routes: seq<NamedRoute>, policy: Option<Policy>)

  /** One operation's answer: whether it worked, and whether a delete took effect. */
  datatype Reply = Reply(ok: bool, gone: bool)

  /** Nothing errs and nothing holds a delete. */
  ghost predicate Smooth(reply: nat -> Reply) {
    forall n: nat :: reply(n).ok && reply(n).gone
  }

  ghost predicate Still(moves: nat -> Option<Move>) {
    forall n: nat :: moves(n).None?
  }

  datatype Progress = Errored | Waiting | Clear

  class RunNamespace {
    var routes: seq<NamedRoute>
    var policy: Option<Policy>
    var finalizer: bool
    /** The routes as they stood at each delete of this Agent's policy. */
    ghost var deletions: seq<seq<NamedRoute>>

    constructor (routes: seq<NamedRoute>, policy: Option<Policy>)
      ensures this.routes == routes && this.policy == policy && finalizer && deletions == []
    {
      this.routes, this.policy, finalizer, deletions := routes, policy, true, [];
    }

    /** Every policy this operator deleted went after every route it owned. */
    ghost predicate Ordered()
      reads this
    {
      forall i :: 0 <= i < |deletions| ==> NoneOwned(deletions[i])
    }

    /** The Agent is released only with its routes and its policy gone. */
    ghost predicate ReleasedClean()
      reads this
    {
      !finalizer ==> NoneOwned(routes) && !Own(policy)
    }

    method Interfere(move: Option<Move>)
      modifies `routes, `policy
      ensures move.None? ==> routes == old(routes) && policy == old(policy)
      ensures NoneOwned(old(routes)) ==> NoneOwned(routes)
      ensures Own(policy) ==> Own(old(policy))
      ensures old(ReleasedClean()) ==> ReleasedClean()
    {
      if move.None? {
        return;
      }
      var m := move.value;
      var mayRoutes := true;
      for i := 0 to |m.routes|
        invariant mayRoutes <==> forall j :: 0 <= j < i ==> !Owned(m.routes[j])
      {
        mayRoutes := mayRoutes && !Owned(m.routes[i]);
      }
      var owned := ListOwned();
      OwnedOfEmpty(routes);
      if mayRoutes || owned != [] {
        routes := m.routes;
      }
      if m.policy.None? || !m.policy.value.own || (policy.Some? && policy.value.own) {
        policy := m.policy;
      }
    }

    /** listOwnedRoutes: the emitted name, and this Agent's UID. */
    method ListOwned() returns (owned: seq<NamedRoute>)
      ensures owned == OwnedOf(routes)
      ensures forall r :: r in owned <==> r in routes && Owned(r)
    {
      OwnedOfMembers(routes);
      owned := [];
      for i := 0 to |routes|
        invariant owned == OwnedOf(routes[..i])
      {
        assert routes[..i + 1][..i] == routes[..i];
        if routes[i].route.labelled && routes[i].serving {
          owned := owned + [routes[i]];
        }
      }
      assert routes[..|routes|] == routes;
    }

    /** deleteAuthPolicy: nothing but this Agent's own policy, and then a read that it is gone. */
    method DeleteAuthPolicy(reply: nat -> Reply, moves: nat -> Option<Move>) returns (p: Progress)
      requires Ordered() && NoneOwned(routes) && finalizer
      modifies this
      ensures Ordered() && NoneOwned(routes) && finalizer
      ensures p == Clear ==> !Own(policy)
      ensures Still(moves) ==> routes == old(routes)
      ensures Still(moves) ==> policy == old(policy) || (Own(old(policy)) && policy.None?)
      ensures Smooth(reply) && Still(moves) ==> p == Clear
    {
      if !reply(0).ok {
        return Errored;
      }
      if policy.None? || !policy.value.own {
        return Clear;
      }
      Interfere(moves(0));
      if policy.Some? {
        if !reply(1).ok || !policy.value.own {
          return Errored;
        }
        deletions := deletions + [routes];
        if reply(1).gone {
          policy := None;
        }
      }
      Interfere(moves(1));
      if !reply(2).ok {
        return Errored;
      }
      p := if policy.None? then Clear else Waiting;
    }

    /** revokeGateway: every owned route deleted, read gone, and only then the
        policy. With nothing in the way it clears. It owns a route by its UID
        label: a serving route without one is left as it was, published or not. */
    method RevokeGateway(reply: nat -> Reply, moves: nat -> Option<Move>,
                         policyReply: nat -> Reply, policyMoves: nat -> Option<Move>)
      returns (p: Progress)
      requires Ordered() && finalizer
      modifies this
      ensures Ordered() && finalizer
      ensures p == Clear ==> NoneOwned(routes) && !Own(policy)
      ensures Still(moves) && Still(policyMoves) ==>
                && (policy == old(policy) || (Own(old(policy)) && policy.None?))
                && (routes == old(routes) || (!NoneOwned(old(routes)) && Cleared(old(routes), routes)))
      ensures Smooth(reply) && Still(moves) && Smooth(policyReply) && Still(policyMoves) ==> p == Clear
    {
      OwnedOfEmpty(routes);
      var owned := ListOwned();
      for i := 0 to |owned|
        invariant Ordered() && finalizer
        invariant Still(moves) && Smooth(reply) && i > 0 ==> NoneOwned(routes)
        invariant Still(moves) ==> policy == old(policy)
        invariant Still(moves) ==> routes == old(routes) || Cleared(old(routes), routes)
        invariant owned != [] ==> !NoneOwned(old(routes))
        invariant Still(moves) && owned == [] ==> routes == old(routes)
      {
        Interfere(moves(i));
        if !reply(i).ok {
          return Errored;
        }
        if reply(i).gone {
          RemoveServing();
        }
      }
      Interfere(moves(|owned|));
      if !reply(|owned|).ok {
        return Errored;
      }
      var remaining := ListOwned();
      OwnedOfEmpty(routes);
      if remaining != [] {
        return Waiting;
      }
      Interfere(moves(|owned| + 1));
      p := DeleteAuthPolicy(policyReply, policyMoves);
    }

    /** A route delete that took effect: nothing of that name is left, and every
        other route is. */
    method RemoveServing()
      modifies `routes
      ensures Cleared(old(routes), routes) && NoneOwned(routes)
    {
      var kept := [];
      for i := 0 to |routes|
        invariant forall r :: r in kept <==> r in routes[..i] && !r.serving
      {
        if !routes[i].serving {
          kept := kept + [routes[i]];
        }
      }
      routes := kept;
    }

    /** finalize, on a run namespace that is live with the gateway enabled: the
        finalizer goes only once the owned routes, and then the policy, are gone,
        and they stay gone. */
    method Finalize(reply: nat -> Reply, moves: nat -> Option<Move>,
                    policyReply: nat -> Reply, policyMoves: nat -> Option<Move>,
                    between: Option<Move>, release: bool)
      requires Ordered() && ReleasedClean()
      modifies this
      ensures Ordered() && ReleasedClean()
      ensures old(finalizer) && !finalizer ==> NoneOwned(routes) && !Own(policy)
      ensures Smooth(reply) && Still(moves) && Smooth(policyReply) && Still(policyMoves) && old(finalizer) ==>
                (finalizer <==> !release)
    {
      if !finalizer {
        return;
      }
      var p := RevokeGateway(reply, moves, policyReply, policyMoves);
      if p != Clear {
        return;
      }
      Interfere(between);
      if release {
        finalizer := false;
      }
    }
  }
}
