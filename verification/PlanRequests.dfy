/** What the subscriptions of a plan ask for, and what follows for the drift metric. */
module PlanRequests {
  import opened Types
  import opened Plan
  import PlanCoverage
  import Stability

  /** The request fits the role: the filters are those of the role's stream and no others, at the
      role's commitment; only the slot request of a comparison has none. */
  ghost predicate RequestFits(cfg: Config, programs: seq<string>, s: Spec) {
    var r := s.request;
    match s.role
    case Main(_, c, stream) =>
      && (c in cfg.commitments || c == LabelCommitment(cfg))
      && (stream == Slots ==> c == LabelCommitment(cfg))
      && r.commitment == (if stream == Slots && !cfg.solo then None else Some(c))
      && r.slots == (if stream == Slots then Some(SlotFilter(false, true)) else None)
      && (r.owners.Some? <==> stream == Accounts)
      && (r.owners.Some? ==> forall p :: p in r.owners.value ==> p in programs)
      && r.transactions == (if stream == Transactions then Some(TransactionFilter(false, false, programs)) else None)
      && r.blocks == (if stream == Blocks then Some(BlockFilter([], true, false, false)) else None)
      && !r.entries
    case Entries(_) =>
      && r.commitment == Some(LabelCommitment(cfg))
      && r.slots == Some(SlotFilter(false, false)) && r.entries
      && r.owners == None && r.transactions == None && r.blocks == None
  }

  ghost predicate AllFit(cfg: Config, programs: seq<string>, specs: seq<Spec>) {
    forall i :: 0 <= i < |specs| ==> RequestFits(cfg, programs, specs[i])
  }

  ghost predicate Within(fs: seq<seq<string>>, programs: seq<string>) {
    forall i, p :: 0 <= i < |fs| && p in fs[i] ==> p in programs
  }

  lemma {:induction false} AccountSpecsFit(cfg: Config, programs: seq<string>, ep: EndpointRole, at: EndpointSpec,
                                           c: Commitment, fs: seq<seq<string>>)
    requires c in cfg.commitments && Within(fs, programs)
    ensures AllFit(cfg, programs, AccountSpecs(ep, at, c, fs))
  {
    if fs != [] {
      AccountSpecsFit(cfg, programs, ep, at, c, fs[..|fs| - 1]);
    }
  }

  lemma {:induction false} OtherSpecsFit(cfg: Config, programs: seq<string>, ep: EndpointRole, at: EndpointSpec,
                                         c: Commitment, streams: seq<MainStream>)
    requires c in cfg.commitments || c == LabelCommitment(cfg)
    requires (cfg.solo && c == LabelCommitment(cfg)) || Slots !in streams
    ensures AllFit(cfg, programs, OtherSpecs(ep, at, c, programs, streams))
  {
    if streams != [] {
      OtherSpecsFit(cfg, programs, ep, at, c, streams[..|streams| - 1]);
    }
  }

  lemma {:induction false} InFlatten(fs: seq<seq<string>>, i: nat, p: string)
    requires i < |fs| && p in fs[i]
    ensures p in PlanCoverage.Flatten(fs)
  {
    var n := |fs| - 1;
    if i < n {
      InFlatten(fs[..n], i, p);
    }
  }

  lemma FiltersWithin(cfg: Config, programs: seq<string>)
    ensures Within(Filters(programs, ChunkSize(cfg)), programs)
  {
    var fs := Filters(programs, ChunkSize(cfg));
    PlanCoverage.FiltersPartition(programs, ChunkSize(cfg));
    forall i, p | 0 <= i < |fs| && p in fs[i] ensures p in programs {
      InFlatten(fs, i, p);
      assert p in multiset(PlanCoverage.Flatten(fs));
    }
  }

  lemma CommitmentFits(cfg: Config, programs: seq<string>, ep: EndpointRole, at: EndpointSpec, c: Commitment)
    requires c in cfg.commitments
    ensures AllFit(cfg, programs, CommitmentSpecs(cfg, programs, ep, at, c))
  {
    FiltersWithin(cfg, programs);
    AccountSpecsFit(cfg, programs, ep, at, c, Filters(programs, ChunkSize(cfg)));
    OtherSpecsFit(cfg, programs, ep, at, c, OtherStreams(cfg));
  }

  lemma {:induction false} EachFits(cfg: Config, programs: seq<string>, per: Commitment -> seq<Spec>, cs: seq<Commitment>)
    requires forall c :: c in cs ==> AllFit(cfg, programs, per(c))
    ensures AllFit(cfg, programs, Each(per, cs))
  {
    if cs != [] {
      EachFits(cfg, programs, per, cs[..|cs| - 1]);
      assert cs[|cs| - 1] in cs;
    }
  }

  lemma MainSpecsFit(cfg: Config, programs: seq<string>, ep: EndpointRole)
    requires !cfg.solo
    ensures AllFit(cfg, programs, MainSpecs(cfg, programs, ep))
  {
    match EndpointOf(cfg, ep)
    case None =>
    case Some(at) =>
      var per := c => CommitmentSpecs(cfg, programs, ep, at, c);
      forall c | c in cfg.commitments ensures AllFit(cfg, programs, per(c)) {
        CommitmentFits(cfg, programs, ep, at, c);
      }
      EachFits(cfg, programs, per, cfg.commitments);
  }

  /** In every plan, each subscription requests what its role says. */
  lemma RequestsMatchRoles(cfg: Config, programs: seq<string>)
    ensures forall i :: 0 <= i < |PlanOf(cfg, programs)| ==> RequestFits(cfg, programs, PlanOf(cfg, programs)[i])
  {
    if cfg.solo {
      OtherSpecsFit(cfg, programs, One, cfg.endpoint1, LabelCommitment(cfg), Dedup(cfg.soloStreams));
    } else {
      MainSpecsFit(cfg, programs, One);
      MainSpecsFit(cfg, programs, Two);
    }
  }

  // ----- no plan feeds the drift metric -----

  /** Some subscription of the plan that asks for slots carries the event's role. */
  ghost predicate AskedFor(specs: seq<Spec>, e: Event) {
    exists i :: 0 <= i < |specs| && specs[i].role == e.subscription && specs[i].request.slots.Some?
  }

  /** Every slot update seen came from a subscription of the plan. */
  ghost predicate FromPlan(specs: seq<Spec>, t: seq<Stability.Input>) {
    forall k :: 0 <= k < |t| && t[k].See? && t[k].e.payload.SlotUpdate? ==> AskedFor(specs, t[k].e)
  }

  /** All slot streams of a plan carry one commitment label. */
  lemma OneLabel(cfg: Config, programs: seq<string>, e: Event)
    requires AskedFor(PlanOf(cfg, programs), e)
    ensures e.subscription.Main? ==> e.subscription.commitment == LabelCommitment(cfg)
  {
    RequestsMatchRoles(cfg, programs);
  }

  lemma {:induction false} OneArm(cfg: Config, programs: seq<string>, ep: EndpointRole, t: seq<Stability.Input>)
    requires FromPlan(PlanOf(cfg, programs), t)
    ensures forall m :: m in Stability.DriftMarks(ep, t) ==> m.confirmed == (LabelCommitment(cfg) == Confirmed)
  {
    if t != [] {
      var n := |t| - 1;
      OneArm(cfg, programs, ep, t[..n]);
      if t[n].See? && t[n].e.payload.SlotUpdate? {
        OneLabel(cfg, programs, t[n].e);
      }
    }
  }

  /** Under no configuration is a drift sample recorded, although the two arms wait for each
      other: all slot streams of a plan are labelled with its first commitment. The arrivals of
      that arm are kept for ever. */
  lemma PlansYieldNoDrift(cfg: Config, programs: seq<string>, ep: EndpointRole, t: seq<Stability.Input>)
    requires FromPlan(PlanOf(cfg, programs), t)
    ensures var s := Stability.Run(ep, t).drift;
            && s.drift.digest.All() == multiset{}
            && (forall slot: U64 :: slot in s.processed <==> Stability.Arrived(Stability.DriftMarks(ep, t), slot, false))
            && (forall slot: U64 :: slot in s.confirmed <==> Stability.Arrived(Stability.DriftMarks(ep, t), slot, true))
  {
    OneArm(cfg, programs, ep, t);
    Stability.DriftsExactlyWhen(Stability.DriftMarks(ep, t));
    Stability.WithoutDriftsAllWait(ep, t);
  }
}
