/** Choosing the model profile that runs a cell. */
module Routing {
  import opened Domain

  /** A role as a cell names it; the routing table and the profiles only know the first four. */
  datatype Role = Worker | Reviewer | Planner | Specialist | OtherRole(text: string)

  datatype Capability = ToolUse | NativeJsonSchema | Vision | Streaming | PromptCaching

  datatype ProfileName = ProfileName(text: string)

  datatype Profile = Profile(
    name: ProfileName,
    roles: set<Role>,
    capabilities: set<Capability>,
    tier: int,
    maxConcurrency: int)

  /** What a cell asks of its profile; a capability name that is not known is `None`. */
  datatype Need = Need(mode: CellMode, roles: seq<Role>, capabilities: seq<Option<Capability>>)

  datatype Config = Config(profiles: seq<Profile>, roleMap: map<Role, seq<ProfileName>>)

  const ROLE_ORDER_WEIGHT: real := 10.0
  const ROLE_ORDER_BASE: real := 1000.0
  const CONCURRENCY_BONUS: real := 0.5
  const TIER3_MIN_REMAINING_USD: real := 1.0

  function KnownCapabilities(caps: seq<Option<Capability>>): set<Capability> {
    set c | c in caps && c.Some? :: c.value
  }

  /** The first position of a name in a preference list. */
  function IndexOf(names: seq<ProfileName>, name: ProfileName): (i: Option<nat>)
    ensures i.Some? ==> i.value < |names| && names[i.value] == name && name !in names[..i.value]
    ensures i.None? ==> name !in names
  {
    if names == [] then None
    else if names[0] == name then Some(0)
    else
      assert names == [names[0]] + names[1..];
      match IndexOf(names[1..], name)
      case Some(i) =>
        assert names[..i + 1] == [names[0]] + names[1..][..i];
        Some(i + 1)
      case None => None
  }

  /** The place of a profile in the list of one role. */
  function OrderFor(config: Config, role: Role, name: ProfileName): Option<nat> {
    if role in config.roleMap then IndexOf(config.roleMap[role], name) else None
  }

  /** The best place of a profile over the roles that a cell asks for. */
  function BestOrder(config: Config, roles: seq<Role>, name: ProfileName): (best: Option<nat>)
    ensures best.None? <==> forall r :: r in roles ==> OrderFor(config, r, name).None?
    ensures best.Some? ==> exists r :: r in roles && OrderFor(config, r, name) == best
    ensures best.Some? ==> forall r :: r in roles && OrderFor(config, r, name).Some? ==>
      best.value <= OrderFor(config, r, name).value
  {
    if roles == [] then None
    else
      var front, last := roles[..|roles| - 1], roles[|roles| - 1];
      assert roles == front + [last];
      var before, here := BestOrder(config, front, name), OrderFor(config, last, name);
      if here.None? then before
      else if before.None? || here.value < before.value then
        assert last in roles;
        here
      else before
  }

  /** A routing table decides by order; without one the profile's own roles must match. */
  predicate Ordered(config: Config, need: Need) {
    config.roleMap != map[] && need.roles != []
  }

  predicate Affordable(p: Profile, remaining: Option<RemainingBudget>) {
    !(remaining.Some? && p.tier >= 3 && remaining.value.cost.Some? &&
      0.0 < remaining.value.cost.value < TIER3_MIN_REMAINING_USD)
  }

  predicate Eligible(config: Config, need: Need, required: set<Capability>, remaining: Option<RemainingBudget>,
                     p: Profile)
  {
    && (Ordered(config, need) ==> BestOrder(config, need.roles, p.name).Some?)
    && (!Ordered(config, need) && need.roles != [] ==> exists r :: r in need.roles && r in p.roles)
    && required + KnownCapabilities(need.capabilities) <= p.capabilities
    && Affordable(p, remaining)
  }

  function TierScore(mode: CellMode, tier: int): real {
    match mode
    case Mutating => if tier == 2 then 2.0 else if tier == 3 then 3.0 else 1.0
    case ReadOnly => if tier == 1 then 3.0 else if tier == 2 then 2.0 else 1.0
  }

  function Score(config: Config, need: Need, p: Profile): real {
    var best := if Ordered(config, need) then BestOrder(config, need.roles, p.name) else None;
    (if best.Some? then (ROLE_ORDER_BASE - best.value as real) * ROLE_ORDER_WEIGHT else TierScore(need.mode, p.tier)) +
    (if p.maxConcurrency > 1 then CONCURRENCY_BONUS else 0.0)
  }

  method ScoreProfile(config: Config, need: Need, required: set<Capability>, remaining: Option<RemainingBudget>,
                      p: Profile)
    returns (score: Option<real>)
    ensures score.Some? <==> Eligible(config, need, required, remaining, p)
    ensures score.Some? ==> score.value == Score(config, need, p)
  {
    var best: Option<nat> := None;
    if config.roleMap != map[] && need.roles != [] {
      for i := 0 to |need.roles|
        invariant best == BestOrder(config, need.roles[..i], p.name)
      {
        assert need.roles[..i + 1][..i] == need.roles[..i];
        var order := OrderFor(config, need.roles[i], p.name);
        if order.Some? && (best.None? || order.value < best.value) {
          best := order;
        }
      }
      assert need.roles[..|need.roles|] == need.roles;
      if best.None? {
        return None;
      }
    } else if need.roles != [] && !exists r :: r in need.roles && r in p.roles {
      return None;
    }
    if !(required + KnownCapabilities(need.capabilities) <= p.capabilities) {
      return None;
    }
    if !Affordable(p, remaining) {
      return None;
    }
    var total := 0.0;
    if best.Some? {
      total := total + (ROLE_ORDER_BASE - best.value as real) * ROLE_ORDER_WEIGHT;
    } else {
      total := total + TierScore(need.mode, p.tier);
    }
    if p.maxConcurrency > 1 {
      total := total + CONCURRENCY_BONUS;
    }
    score := Some(total);
  }

  /** What a route may select: an eligible profile that is not excluded. */
  predicate Candidate(config: Config, need: Need, required: set<Capability>, remaining: Option<RemainingBudget>,
                      excluded: set<ProfileName>, p: Profile) {
    p.name !in excluded && Eligible(config, need, required, remaining, p)
  }

  /** The profile at `i` beats every candidate among the first `n`, and is the first that does. */
  ghost predicate FirstBest(config: Config, need: Need, required: set<Capability>, remaining: Option<RemainingBudget>,
                            excluded: set<ProfileName>, n: nat, i: nat)
    requires i < n <= |config.profiles|
  {
    && Candidate(config, need, required, remaining, excluded, config.profiles[i])
    && forall j :: 0 <= j < n && Candidate(config, need, required, remaining, excluded, config.profiles[j]) ==>
         Score(config, need, config.profiles[j]) <= Score(config, need, config.profiles[i]) &&
         (j < i ==> Score(config, need, config.profiles[j]) < Score(config, need, config.profiles[i]))
  }

  /** The selected profile, or none when the route abstains. */
  method Route(config: Config, need: Need, remaining: Option<RemainingBudget>, excluded: set<ProfileName>,
               required: set<Capability>)
    returns (selected: Option<ProfileName>)
    ensures selected.None? <==>
      forall p :: p in config.profiles ==> !Candidate(config, need, required, remaining, excluded, p)
    ensures selected.Some? ==> exists i: nat ::
      i < |config.profiles| && config.profiles[i].name == selected.value &&
      FirstBest(config, need, required, remaining, excluded, |config.profiles|, i)
  {
    var best: Option<(nat, real)> := None;
    for k := 0 to |config.profiles|
      invariant best.None? ==> forall j :: 0 <= j < k ==>
        !Candidate(config, need, required, remaining, excluded, config.profiles[j])
      invariant best.Some? ==> best.value.0 < k && best.value.1 == Score(config, need, config.profiles[best.value.0])
      invariant best.Some? ==> FirstBest(config, need, required, remaining, excluded, k, best.value.0)
    {
      var p := config.profiles[k];
      if p.name in excluded {
        continue;
      }
      var score := ScoreProfile(config, need, required, remaining, p);
      if score.Some? && (best.None? || score.value > best.value.1) {
        best := Some((k, score.value));
      }
    }
    selected := if best.Some? then Some(config.profiles[best.value.0].name) else None;
  }

  /** The cell asks for the capability by name, or its run requires it. */
  predicate Wants(need: Need, required: set<Capability>, c: Capability) {
    c in required || Some(c) in need.capabilities
  }

  /** A role of the cell has the profile in its list or, without a routing table, is one of the profile's own. */
  ghost predicate Serves(config: Config, need: Need, p: Profile) {
    || need.roles == []
    || exists r :: r in need.roles &&
         if config.roleMap == map[] then r in p.roles else r in config.roleMap && p.name in config.roleMap[r]
  }

  /**
   * A profile can be routed to if and only if it is not excluded, serves the cell, has everything the cell wants and,
   * on the dearest tier, has either nothing or at least a dollar left to spend.
   */
  lemma {:induction false} CandidateMeans(config: Config, need: Need, required: set<Capability>,
                                          remaining: Option<RemainingBudget>, excluded: set<ProfileName>, p: Profile)
    ensures Candidate(config, need, required, remaining, excluded, p) <==>
      && p.name !in excluded && Serves(config, need, p)
      && (forall c :: Wants(need, required, c) ==> c in p.capabilities)
      && (p.tier < 3 || remaining.None? || remaining.value.cost.None? || remaining.value.cost.value == 0.0 ||
          remaining.value.cost.value >= 1.0)
  {
    WantsAll(need, required, p.capabilities);
    ServesIff(config, need, p);
  }

  lemma {:induction false} WantsAll(need: Need, required: set<Capability>, has: set<Capability>)
    ensures required + KnownCapabilities(need.capabilities) <= has <==>
            forall c :: Wants(need, required, c) ==> c in has
  {
    forall c ensures Wants(need, required, c) <==> c in required + KnownCapabilities(need.capabilities) {
      assert Some(c) in need.capabilities ==> Some(c).value in KnownCapabilities(need.capabilities);
    }
  }

  lemma {:induction false} ServesIff(config: Config, need: Need, p: Profile)
    ensures Serves(config, need, p) <==>
      (if Ordered(config, need) then BestOrder(config, need.roles, p.name).Some?
       else need.roles == [] || exists r :: r in need.roles && r in p.roles)
  {
    forall r | r in config.roleMap ensures OrderFor(config, r, p.name).Some? <==> p.name in config.roleMap[r] {
    }
  }

  // What the scores mean.

  /** With a routing table the configured order decides; concurrency only breaks ties. */
  lemma {:induction false} OrderDecides(config: Config, need: Need, required: set<Capability>,
                                        remaining: Option<RemainingBudget>, excluded: set<ProfileName>, i: nat, j: nat)
    requires i < |config.profiles| && j < |config.profiles| && Ordered(config, need)
    requires FirstBest(config, need, required, remaining, excluded, |config.profiles|, i)
    requires Candidate(config, need, required, remaining, excluded, config.profiles[j])
    ensures BestOrder(config, need.roles, config.profiles[i].name).value <=
      BestOrder(config, need.roles, config.profiles[j].name).value
  {
    var a := BestOrder(config, need.roles, config.profiles[i].name).value;
    var b := BestOrder(config, need.roles, config.profiles[j].name).value;
    assert Score(config, need, config.profiles[j]) <= Score(config, need, config.profiles[i]);
    assert b < a ==> b as real + 1.0 <= a as real;
  }

  /** Without one, writers get the highest of the three tiers that is eligible and readers the lowest. */
  lemma {:induction false} TierDecides(config: Config, need: Need, required: set<Capability>,
                                       remaining: Option<RemainingBudget>, excluded: set<ProfileName>, i: nat, j: nat)
    requires i < |config.profiles| && j < |config.profiles| && !Ordered(config, need)
    requires FirstBest(config, need, required, remaining, excluded, |config.profiles|, i)
    requires Candidate(config, need, required, remaining, excluded, config.profiles[j])
    requires 1 <= config.profiles[i].tier <= 3 && 1 <= config.profiles[j].tier <= 3
    ensures if need.mode.Mutating? then config.profiles[j].tier <= config.profiles[i].tier
            else config.profiles[i].tier <= config.profiles[j].tier
  {
    assert Score(config, need, config.profiles[j]) <= Score(config, need, config.profiles[i]);
  }
}
