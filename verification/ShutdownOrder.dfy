/** The order in which services are stopped: the reverse of the order in which they were started. */
module ShutdownOrder {
  import opened Services
  import opened ServiceWorld
  import opened ServiceRuns

  ghost predicate Descending(ss: seq<Service>) {
    forall i, j :: 0 <= i < j < |ss| ==> ss[i].startOrder > ss[j].startOrder
  }

  function Started(ss: seq<Service>): seq<Service> {
    if ss == [] then []
    else Started(ss[..|ss| - 1]) + if ss[|ss| - 1].startOrder > 0 then [ss[|ss| - 1]] else []
  }

  ghost predicate OrdersDistinct(ss: seq<Service>) {
    forall i, j :: 0 <= i < j < |ss| && ss[i].startOrder > 0 ==> ss[i].startOrder != ss[j].startOrder
  }

  lemma {:induction false} StartedMember(ss: seq<Service>, s: Service)
    ensures s in Started(ss) <==> s in ss && s.startOrder > 0
  {
    if ss != [] {
      assert ss == ss[..|ss| - 1] + [ss[|ss| - 1]];
      StartedMember(ss[..|ss| - 1], s);
    }
  }

  /** `services_in_shutdown_order`: collect the started services, each put in its place. */
  method InShutdownOrder(ss: seq<Service>) returns (r: seq<Service>)
    requires OrdersDistinct(ss)
    ensures Descending(r) && multiset(r) == multiset(Started(ss))
    ensures forall s :: s in r <==> s in ss && s.startOrder > 0
  {
    r := [];
    var n := 0;
    while n < |ss|
      invariant 0 <= n <= |ss|
      invariant Descending(r) && multiset(r) == multiset(Started(ss[..n]))
    {
      assert ss[..n + 1][..n] == ss[..n];
      if ss[n].startOrder > 0 {
        forall i | 0 <= i < |r| ensures r[i].startOrder != ss[n].startOrder {
          assert r[i] in multiset(r);
          StartedMember(ss[..n], r[i]);
        }
        r := Place(r, ss[n]);
      }
      n := n + 1;
    }
    assert ss[..n] == ss;
    forall s ensures s in r <==> s in ss && s.startOrder > 0 {
      assert s in r <==> s in multiset(r);
      StartedMember(ss, s);
    }
  }

  method Place(r: seq<Service>, s: Service) returns (q: seq<Service>)
    requires Descending(r) && forall i :: 0 <= i < |r| ==> r[i].startOrder != s.startOrder
    ensures Descending(q) && multiset(q) == multiset(r) + multiset{s}
  {
    var k := 0;
    while k < |r| && r[k].startOrder > s.startOrder
      invariant 0 <= k <= |r|
      invariant forall i :: 0 <= i < k ==> r[i].startOrder > s.startOrder
    {
      k := k + 1;
    }
    q := r[..k] + [s] + r[k..];
    InsertedKeeps(r, s, k);
  }

  lemma InsertedKeeps(r: seq<Service>, s: Service, k: nat)
    requires k <= |r|
    ensures multiset(r[..k] + [s] + r[k..]) == multiset(r) + multiset{s}
  {
    assert r == r[..k] + r[k..];
  }

  /** The position of a service's latest start in the history of starts, counted from one. */
  ghost predicate LastStartedAt(starts: seq<string>, name: string, at: nat) {
    0 < at <= |starts| && starts[at - 1] == name && forall k :: at <= k < |starts| ==> starts[k] != name
  }

  ghost predicate StartedAfter(starts: seq<string>, later: string, earlier: string) {
    forall a, b :: LastStartedAt(starts, later, a) && LastStartedAt(starts, earlier, b) ==> a > b
  }

  /** In every reachable state the order is defined and tells history: exactly the running services, each
      one started later than all those after it. */
  lemma OrderTellsHistory(policy: string -> FailureAction, run: Run, r: seq<Service>)
    requires Descending(r) && forall s :: s in r <==> s in After(policy, run).services && s.startOrder > 0
    ensures OrdersDistinct(After(policy, run).services)
    ensures forall s :: s in r <==> s in After(policy, run).services && SvcRunning in s.flags
    ensures forall i, j :: 0 <= i < j < |r| ==> StartedAfter(After(policy, run).g.starts, r[i].name, r[j].name)
    ensures forall i :: 0 <= i < |r| ==> LastStartedAt(After(policy, run).g.starts, r[i].name, r[i].startOrder)
  {
    Reachable(policy, run);
    var w := After(policy, run);
    ReachableOrders(policy, run);
    forall s ensures s in r <==> s in w.services && SvcRunning in s.flags {
      if s in w.services {
        var k :| 0 <= k < |w.services| && w.services[k] == s;
        assert Lifecycle(w.services[k]);
      }
    }
    forall i | 0 <= i < |r| ensures LastStartedAt(w.g.starts, r[i].name, r[i].startOrder) {
      assert r[i] in w.services;
      var k :| 0 <= k < |w.services| && w.services[k] == r[i];
      assert LatestStart(w.services[k], w.g);
    }
    forall i, j | 0 <= i < j < |r| ensures StartedAfter(w.g.starts, r[i].name, r[j].name) {
      forall a, b | LastStartedAt(w.g.starts, r[i].name, a) && LastStartedAt(w.g.starts, r[j].name, b) ensures a > b {
        LastStartUnique(w.g.starts, r[i].name, a, r[i].startOrder);
        LastStartUnique(w.g.starts, r[j].name, b, r[j].startOrder);
      }
    }
  }

  lemma LastStartUnique(starts: seq<string>, name: string, a: nat, b: nat)
    requires LastStartedAt(starts, name, a) && LastStartedAt(starts, name, b)
    ensures a == b
  {
  }

  /** Live start orders are distinct and below the next one to be given out. */
  lemma ReachableOrders(policy: string -> FailureAction, run: Run)
    ensures OrdersDistinct(After(policy, run).services)
    ensures forall i :: 0 <= i < |After(policy, run).services| ==> After(policy, run).services[i].startOrder < After(policy, run).g.nextOrder
  {
    Reachable(policy, run);
    var w := After(policy, run);
    forall i, j | 0 <= i < j < |w.services| && w.services[i].startOrder > 0
      ensures w.services[i].startOrder != w.services[j].startOrder
    {
      assert LatestStart(w.services[i], w.g) && LatestStart(w.services[j], w.g);
    }
    forall i | 0 <= i < |w.services| ensures w.services[i].startOrder < w.g.nextOrder {
      assert LatestStart(w.services[i], w.g);
    }
  }
}
