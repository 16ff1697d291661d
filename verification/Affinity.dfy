/** Core layouts: how cores are split between the endpoints, and how receivers spread over
    their endpoint's cores. */
module Affinity {
  import opened Types
  import opened Arith

  const U32_MAX: nat := 0xFFFF_FFFF

  datatype AffinitySpec = AffinitySpec(endpoint1: seq<nat>, endpoint2: seq<nat>, processor: Option<nat>, control: Option<nat>)

  const NO_PIN := AffinitySpec([], [], None, None)

  function CoreRange(start: nat, end: nat): seq<nat>
    requires start <= end
  {
    seq(end - start, i requires 0 <= i => start + i)
  }

  /** Two system cores below, one control core on top, the rest split in half. */
  function AutoForCoreCount(nproc: nat): AffinitySpec {
    if nproc < 6 then NO_PIN
    else
      var n := if nproc <= U32_MAX then nproc else U32_MAX;
      var last := n - 1;
      var half := (last - 1 - 2 + 1) / 2;
      AffinitySpec(CoreRange(2, 2 + half), CoreRange(2 + half, last), None, Some(last))
  }

  /** Below six cores nothing is pinned. From six up the two endpoints partition cores 2 to n-2
      in order, one by one, their shares differ by at most one, and the control core is the one
      above. */
  lemma AutoPartitions(nproc: nat)
    ensures var n, a := if nproc < 0x1_0000_0000 then nproc else 0xFFFF_FFFF, AutoForCoreCount(nproc);
            && a.processor == None
            && (nproc < 6 ==> a.endpoint1 == [] && a.endpoint2 == [] && a.control == None)
            && (nproc >= 6 ==>
                  && |a.endpoint1| + |a.endpoint2| == n - 3
                  && (forall i :: 0 <= i < |a.endpoint1| ==> a.endpoint1[i] == 2 + i)
                  && (forall i :: 0 <= i < |a.endpoint2| ==> a.endpoint2[i] == 2 + |a.endpoint1| + i)
                  && |a.endpoint1| <= |a.endpoint2| <= |a.endpoint1| + 1
                  && a.endpoint1 != [] && a.control == Some(n - 1))
  {
  }

  // ----- receivers over cores -----

  function CoresOf(a: AffinitySpec, ep: EndpointRole): seq<nat> {
    if ep == One then a.endpoint1 else a.endpoint2
  }

  function CoreFor(a: AffinitySpec, role: SubscriptionRole, index: nat): Option<nat> {
    var cores := CoresOf(a, role.ep);
    if cores == [] then None else Some(cores[index % |cores|])
  }

  /** Receivers of an endpoint among the first `n`. */
  function CountOf(roles: seq<SubscriptionRole>, n: nat, ep: EndpointRole): nat
    requires n <= |roles|
  {
    if n == 0 then 0 else CountOf(roles, n - 1, ep) + (if roles[n - 1].ep == ep then 1 else 0)
  }

  /** The index after the last one handed out, starting from 0. */
  function NextIndex(lastIndex: map<EndpointRole, nat>, ep: EndpointRole): nat {
    if ep in lastIndex then lastIndex[ep] + 1 else 0
  }

  /** Cores of the first `n` receivers, each indexed by its position within its endpoint. */
  function Assigned(a: AffinitySpec, roles: seq<SubscriptionRole>, n: nat): (cores: seq<Option<nat>>)
    requires n <= |roles|
    ensures |cores| == n
  {
    if n == 0 then []
    else Assigned(a, roles, n - 1) + [CoreFor(a, roles[n - 1], CountOf(roles, n - 1, roles[n - 1].ep))]
  }

  /** The receiver spawn loop, which counts per endpoint in a map. */
  method AssignCores(a: AffinitySpec, roles: seq<SubscriptionRole>) returns (cores: seq<Option<nat>>)
    ensures cores == Assigned(a, roles, |roles|)
  {
    cores := [];
    var lastIndex: map<EndpointRole, nat> := map[];
    for i := 0 to |roles|
      invariant cores == Assigned(a, roles, i)
      invariant CountOf(roles, i, One) == NextIndex(lastIndex, One)
      invariant CountOf(roles, i, Two) == NextIndex(lastIndex, Two)
    {
      var ep := roles[i].ep;
      var index := NextIndex(lastIndex, ep);
      lastIndex := lastIndex[ep := index];
      cores := cores + [CoreFor(a, roles[i], index)];
    }
  }

  /** The receivers before `i` of the same endpoint. */
  function EarlierPeers(roles: seq<SubscriptionRole>, i: nat): set<nat>
    requires i < |roles|
  {
    set j | 0 <= j < i && roles[j].ep == roles[i].ep
  }

  lemma {:induction false} CountOfPeers(roles: seq<SubscriptionRole>, n: nat, ep: EndpointRole)
    requires n <= |roles|
    ensures CountOf(roles, n, ep) == |set j | 0 <= j < n && roles[j].ep == ep|
  {
    var peers := set j | 0 <= j < n && roles[j].ep == ep;
    if n == 0 {
      assert peers == {};
    } else {
      var before := set j | 0 <= j < n - 1 && roles[j].ep == ep;
      CountOfPeers(roles, n - 1, ep);
      assert peers == before + (if roles[n - 1].ep == ep then {n - 1} else {});
    }
  }

  /** Receiver `i` cycles through its own endpoint's cores by how many receivers of that endpoint
      came before it; an endpoint without cores is not pinned. */
  lemma {:induction false} AssignedByPosition(a: AffinitySpec, roles: seq<SubscriptionRole>, n: nat, i: nat)
    requires i < n <= |roles|
    ensures var cores := if roles[i].ep == One then a.endpoint1 else a.endpoint2;
            Assigned(a, roles, n)[i] == if cores == [] then None else Some(cores[|EarlierPeers(roles, i)| % |cores|])
  {
    if i < n - 1 {
      AssignedByPosition(a, roles, n - 1, i);
    } else {
      CountOfPeers(roles, i, roles[i].ep);
    }
  }

  /** How many of an endpoint's receivers among the first `n` got a core. */
  function Load(a: AffinitySpec, roles: seq<SubscriptionRole>, n: nat, ep: EndpointRole, core: nat): nat
    requires n <= |roles|
  {
    if n == 0 then 0
    else
      Load(a, roles, n - 1, ep, core)
      + (if roles[n - 1].ep == ep && Assigned(a, roles, n)[n - 1] == Some(core) then 1 else 0)
  }

  ghost predicate DistinctCores(cores: seq<nat>) {
    forall i, j :: 0 <= i < j < |cores| ==> cores[i] != cores[j]
  }

  /** The k-th core serves every L-th receiver: the whole part of the share, and one more for
      the first cores when it does not divide evenly. */
  lemma {:induction false} LoadExact(a: AffinitySpec, roles: seq<SubscriptionRole>, n: nat, ep: EndpointRole, k: nat)
    requires n <= |roles| && DistinctCores(CoresOf(a, ep)) && k < |CoresOf(a, ep)|
    ensures var cores, count := CoresOf(a, ep), CountOf(roles, n, ep);
            Load(a, roles, n, ep, cores[k]) == count / |cores| + (if k < count % |cores| then 1 else 0)
  {
    var cores := CoresOf(a, ep);
    if n == 0 {
      DivUnique(0, |cores|, 0, 0);
    } else {
      LoadExact(a, roles, n - 1, ep, k);
      var index := CountOf(roles, n - 1, ep);
      DivModSucc(index, |cores|);
      var i := index % |cores|;
      assert cores[i] == cores[k] <==> i == k;
    }
  }

  /** Receivers spread over an endpoint's distinct cores with loads that differ by at most 1. */
  lemma LoadsBalanced(a: AffinitySpec, roles: seq<SubscriptionRole>, ep: EndpointRole, j: nat, k: nat)
    requires DistinctCores(CoresOf(a, ep)) && j < k < |CoresOf(a, ep)|
    ensures var cores := CoresOf(a, ep);
            Load(a, roles, |roles|, ep, cores[k]) <= Load(a, roles, |roles|, ep, cores[j]) <= Load(a, roles, |roles|, ep, cores[k]) + 1
  {
    LoadExact(a, roles, |roles|, ep, j);
    LoadExact(a, roles, |roles|, ep, k);
  }
}
