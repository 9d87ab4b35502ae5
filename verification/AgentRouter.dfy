/** Which agent serves a request: explicit bindings, the project's route table, and the
    cost-aware choice among the candidates. */
module AgentRouter {
  import opened Options
  import opened Text
  import opened RouterScoring

  datatype Protocol = Codex | Ollama | Other

  /** Absent optional strings of an agent are empty, except for its name. */
  datatype Agent = Agent(
    id: string, name: Option<string>, protocol: Protocol, baseUrl: string, model: string,
    credentialKey: string, apiKey: string, economics: Economics)

  /** `agentId` is empty if the entry does not name an agent. */
  datatype Entry = Entry(agentId: string, fallback: seq<string>)

  /** `routes` lists the route table in the order of its keys; `lower` is lower-casing. */
  datatype Env = Env(
    agents: seq<Agent>, routes: seq<(string, Entry)>, defaultAgentId: string, lower: string -> string)

  datatype Request = Request(agentId: string, category: string, scopeSize: nat, textLength: nat)

  const FALLBACK_CATEGORY := "__fallback__"

  function EstimateTier(scopeSize: nat, textLength: nat): Tier {
    if textLength >= 8000 || scopeSize >= 12 then Heavy
    else if textLength >= 2000 || scopeSize >= 4 then Standard
    else Light
  }

  predicate IsAgentCallable(a: Agent) {
    a.protocol.Codex?
    || (Trim(a.baseUrl) != "" && Trim(a.model) != ""
        && (a.protocol.Ollama? || Trim(a.credentialKey) != "" || Trim(a.apiKey) != ""))
  }

  // ---------- references to agents ----------

  function FindId(agents: seq<Agent>, id: string): (r: Option<Agent>)
    ensures r.Some? ==> r.value in agents && r.value.id == id
    ensures r.None? ==> forall a :: a in agents ==> a.id != id
  {
    if agents == [] then None
    else if agents[0].id == id then Some(agents[0])
    else FindId(agents[1..], id)
  }

  function FindName(agents: seq<Agent>, lower: string -> string, folded: string): (r: Option<Agent>)
    ensures r.Some? ==> r.value in agents
  {
    if agents == [] then None
    else if agents[0].name.Some? && lower(Trim(agents[0].name.value)) == folded then Some(agents[0])
    else FindName(agents[1..], lower, folded)
  }

  /** An agent by its exact id, or else by its name up to case and surrounding space. */
  function ById(env: Env, ref: string): (r: Option<Agent>)
    ensures r.Some? ==> r.value in env.agents
  {
    if ref == "" then None
    else
      var exact := FindId(env.agents, ref);
      if exact.Some? then exact else FindName(env.agents, env.lower, env.lower(Trim(ref)))
  }

  // ---------- the route table ----------

  function Lookup(routes: seq<(string, Entry)>, key: string): Option<Entry> {
    if routes == [] then None
    else if routes[0].0 == key then Some(routes[0].1)
    else Lookup(routes[1..], key)
  }

  function LookupFolded(routes: seq<(string, Entry)>, lower: string -> string, key: string): Option<Entry> {
    if routes == [] then None
    else if routes[0].0 != FALLBACK_CATEGORY && lower(routes[0].0) == key then Some(routes[0].1)
    else LookupFolded(routes[1..], lower, key)
  }

  predicate Names(entry: Option<Entry>) {
    entry.Some? && (entry.value.agentId != "" || entry.value.fallback != [])
  }

  function FallbackEntry(env: Env): Option<Entry> {
    var entry := Lookup(env.routes, FALLBACK_CATEGORY);
    if Names(entry) then entry else None
  }

  function RouteEntry(env: Env, category: string): Option<Entry> {
    var key := Trim(env.lower(category));
    if key == "" then FallbackEntry(env)
    else
      var exact := Lookup(env.routes, key);
      var folded := LookupFolded(env.routes, env.lower, key);
      if exact.Some? then exact else if folded.Some? then folded else FallbackEntry(env)
  }

  function Fallbacks(entry: Option<Entry>): seq<string> {
    if entry.Some? then entry.value.fallback else []
  }

  function Primary(entry: Option<Entry>): string {
    if entry.Some? then entry.value.agentId else ""
  }

  function Ids(agents: seq<Agent>): (ids: seq<string>)
    ensures |ids| == |agents| && forall i :: 0 <= i < |agents| ==> ids[i] == agents[i].id
  {
    seq(|agents|, i requires 0 <= i < |agents| => agents[i].id)
  }

  // ---------- candidate chains ----------

  predicate Exists(env: Env, id: string) {
    FindId(env.agents, id).Some?
  }

  /** Existing ids in order, each once. */
  function Collect(env: Env, refs: seq<string>): seq<string> {
    if refs == [] then []
    else
      var chain, id := Collect(env, refs[..|refs| - 1]), refs[|refs| - 1];
      if id == "" || id in chain || !Exists(env, id) then chain else chain + [id]
  }

  /** The references behind the chosen agent: a category route is not left. */
  function RestRefs(env: Env, entry: Option<Entry>): seq<string> {
    if Names(entry) then Fallbacks(entry) else Fallbacks(entry) + [env.defaultAgentId] + Ids(env.agents)
  }

  function ChainRefs(agent: Agent, env: Env, category: string): seq<string> {
    [agent.id] + RestRefs(env, RouteEntry(env, category))
  }

  method PushAll(env: Env, refs: seq<string>, chain: seq<string>, seen: set<string>, ghost before: seq<string>)
    returns (chain': seq<string>, seen': set<string>)
    requires chain == Collect(env, before) && seen == set id | id in chain
    ensures chain' == Collect(env, before + refs) && seen' == set id | id in chain'
  {
    chain', seen' := chain, seen;
    assert before + refs[..0] == before;
    for i := 0 to |refs|
      invariant chain' == Collect(env, before + refs[..i]) && seen' == set id | id in chain'
    {
      var id := refs[i];
      assert before + refs[..i + 1] == (before + refs[..i]) + [id];
      assert (before + refs[..i + 1])[..|before| + i] == before + refs[..i];
      if id != "" && id !in seen' && Exists(env, id) {
        seen' := seen' + {id};
        chain' := chain' + [id];
      }
    }
    assert refs[..|refs|] == refs;
  }

  /** The full chain of candidates for retries after a decision. */
  method CandidateChain(agent: Agent, env: Env, category: string) returns (chain: seq<string>)
    ensures chain == Collect(env, ChainRefs(agent, env, category))
  {
    var seen: set<string> := {};
    chain := [];
    assert Collect(env, []) == [];
    hide Collect, RouteEntry, Names, Fallbacks;
    chain, seen := PushAll(env, [agent.id], chain, seen, []);
    var entry := RouteEntry(env, category);
    var head, fallbacks := [agent.id], Fallbacks(entry);
    assert [] + head == head;
    chain, seen := PushAll(env, fallbacks, chain, seen, head);
    if !Names(entry) {
      chain, seen := PushAll(env, [env.defaultAgentId], chain, seen, head + fallbacks);
      chain, seen := PushAll(env, Ids(env.agents), chain, seen, head + fallbacks + [env.defaultAgentId]);
      Regroup(head, fallbacks, [env.defaultAgentId], Ids(env.agents));
    }
  }

  lemma Regroup(a: seq<string>, b: seq<string>, c: seq<string>, d: seq<string>)
    ensures a + b + c + d == a + (b + c + d)
  {
  }

  /** A chain has no duplicates and contains exactly the references that exist. */
  lemma {:induction false} CollectExact(env: Env, refs: seq<string>)
    ensures forall p, q :: 0 <= p < q < |Collect(env, refs)| ==> Collect(env, refs)[p] != Collect(env, refs)[q]
    ensures forall id :: id in Collect(env, refs) <==> id in refs && id != "" && Exists(env, id)
  {
    if refs != [] {
      CollectExact(env, refs[..|refs| - 1]);
      assert refs == refs[..|refs| - 1] + [refs[|refs| - 1]];
    }
  }

  lemma {:induction false} CollectPrefix(env: Env, a: seq<string>, b: seq<string>)
    ensures Collect(env, a) <= Collect(env, a + b)
  {
    if b == [] {
      assert a + b == a;
    } else {
      CollectPrefix(env, a, b[..|b| - 1]);
      assert (a + b)[..|a + b| - 1] == a + b[..|b| - 1];
    }
  }

  /** The chain starts with the chosen agent, and a category route is a hard limit: what
      follows comes from that route's own list. */
  lemma ChainStaysInCategory(agent: Agent, env: Env, category: string)
    requires agent in env.agents && agent.id != ""
    ensures var chain := Collect(env, ChainRefs(agent, env, category));
      var entry := RouteEntry(env, category);
      && chain != [] && chain[0] == agent.id
      && (Names(entry) ==> forall id :: id in chain ==> id == agent.id || id in entry.value.fallback)
      && (!Names(entry) ==> forall a :: a in env.agents && a.id != "" ==> a.id in chain)
  {
    hide RouteEntry, Collect, FindId;
    var entry := RouteEntry(env, category);
    var rest := RestRefs(env, entry);
    CollectExact(env, [agent.id] + rest);
    CollectFirst(agent, env);
    CollectPrefix(env, [agent.id], rest);
    if !Names(entry) {
      forall a | a in env.agents && a.id != "" ensures a.id in rest && Exists(env, a.id) {
        var i :| 0 <= i < |env.agents| && env.agents[i] == a;
        assert Ids(env.agents)[i] == a.id;
        Found(env.agents, a);
      }
    }
  }

  lemma CollectFirst(agent: Agent, env: Env)
    requires agent in env.agents && agent.id != ""
    ensures Collect(env, [agent.id]) == [agent.id]
  {
    Found(env.agents, agent);
    assert [agent.id][..0] == [];
    assert Collect(env, []) == [];
  }

  lemma Found(agents: seq<Agent>, a: Agent)
    requires a in agents
    ensures FindId(agents, a.id).Some?
  {
  }

  // ---------- the fixed order of fallbacks ----------

  datatype Reason =
    | Explicit | RouteCategory | ExplicitMissingRoute | RouteFallback | DefaultFallback | ExplicitMissingDefault
    | FirstAvailable | ExplicitMissingFirst | ScoredOptimal | ExplicitMissingScored

  datatype Choice = Choice(agent: Agent, reason: Reason)

  datatype Decision = Decision(agent: Agent, reason: Reason, routed: bool, tier: Tier, chain: seq<string>)

  datatype Outcome = Decided(decision: Decision) | NoAgent

  function FirstOf(env: Env, refs: seq<string>): Option<Agent> {
    if refs == [] then None
    else if ById(env, refs[0]).Some? then ById(env, refs[0])
    else FirstOf(env, refs[1..])
  }

  /** The branches of the decision: the agent and the reason for it. */
  function Choose(request: Request, env: Env): Option<Choice> {
    var entry := RouteEntry(env, request.category);
    var given := request.agentId != "";
    if ById(env, request.agentId).Some? then Some(Choice(ById(env, request.agentId).value, Explicit))
    else if ById(env, Primary(entry)).Some? then
      Some(Choice(ById(env, Primary(entry)).value, if given then ExplicitMissingRoute else RouteCategory))
    else if FirstOf(env, Fallbacks(entry)).Some? then Some(Choice(FirstOf(env, Fallbacks(entry)).value, RouteFallback))
    else if ById(env, env.defaultAgentId).Some? then
      Some(Choice(ById(env, env.defaultAgentId).value, if given then ExplicitMissingDefault else DefaultFallback))
    else if env.agents != [] then Some(Choice(env.agents[0], if given then ExplicitMissingFirst else FirstAvailable))
    else None
  }

  lemma {:induction false} FirstOfAppend(env: Env, a: seq<string>, b: seq<string>)
    ensures FirstOf(env, a + b) == if FirstOf(env, a).Some? then FirstOf(env, a) else FirstOf(env, b)
  {
    if a == [] {
      assert a + b == b;
    } else {
      FirstOfAppend(env, a[1..], b);
      assert (a + b)[1..] == a[1..] + b && (a + b)[0] == a[0];
    }
  }

  lemma FirstOfOne(env: Env, ref: string)
    ensures FirstOf(env, [ref]) == ById(env, ref)
  {
    assert [ref][1..] == [];
  }

  lemma {:induction false} FirstOfMember(env: Env, refs: seq<string>)
    ensures FirstOf(env, refs).Some? ==> FirstOf(env, refs).value in env.agents
  {
    if refs != [] {
      FirstOfMember(env, refs[1..]);
    }
  }

  /** The references that are tried, in this order. */
  function Tried(request: Request, env: Env): seq<string> {
    var entry := RouteEntry(env, request.category);
    [request.agentId, Primary(entry)] + Fallbacks(entry) + [env.defaultAgentId]
  }

  lemma FirstTried(env: Env, own: string, primary: string, fallbacks: seq<string>, last: string)
    ensures FirstOf(env, [own, primary] + fallbacks + [last]) ==
      if ById(env, own).Some? then ById(env, own)
      else if ById(env, primary).Some? then ById(env, primary)
      else if FirstOf(env, fallbacks).Some? then FirstOf(env, fallbacks)
      else ById(env, last)
  {
    FirstOfOne(env, own);
    FirstOfOne(env, primary);
    FirstOfOne(env, last);
    hide FirstOf, ById;
    var head := [own, primary];
    assert head == [own] + [primary];
    FirstOfAppend(env, head + fallbacks, [last]);
    FirstOfAppend(env, head, fallbacks);
    FirstOfAppend(env, [own], [primary]);
  }

  /** The chosen agent is the first that exists in one list of references: the explicit
      one, the route's agent, its fallbacks, the project default; then the first agent of
      all. A decision fails only if there are no agents. */
  lemma ChoosesFirstKnown(request: Request, env: Env)
    ensures Choose(request, env).None? <==> env.agents == []
    ensures Choose(request, env).Some? ==>
      var agent, known := Choose(request, env).value.agent, FirstOf(env, Tried(request, env));
      agent in env.agents && agent == if known.Some? then known.value else env.agents[0]
  {
    hide RouteEntry, ById, FirstOf, Fallbacks, Primary;
    var entry := RouteEntry(env, request.category);
    FirstTried(env, request.agentId, Primary(entry), Fallbacks(entry), env.defaultAgentId);
    FirstOfMember(env, Fallbacks(entry));
    KnownMembers(env);
  }

  lemma KnownMembers(env: Env)
    ensures forall ref :: ById(env, ref).Some? ==> ById(env, ref).value in env.agents
  {
  }

  method MakeDecision(agent: Agent, reason: Reason, routed: bool, env: Env, category: string, tier: Tier)
    returns (decision: Decision)
    ensures decision == Decision(agent, reason, routed, tier, Collect(env, ChainRefs(agent, env, category)))
  {
    var chain := CandidateChain(agent, env, category);
    return Decision(agent, reason, routed, tier, chain);
  }

  /** The decision for a choice, and what it means. */
  ghost predicate Decides(decision: Decision, choice: Choice, request: Request, env: Env) {
    && decision.agent == choice.agent && decision.reason == choice.reason
    && (decision.routed <==> choice.reason != Explicit)
    && decision.tier == EstimateTier(request.scopeSize, request.textLength)
    && decision.chain == Collect(env, ChainRefs(choice.agent, env, request.category))
  }

  method FirstFallback(env: Env, fallbacks: seq<string>) returns (agent: Option<Agent>)
    ensures agent == FirstOf(env, fallbacks)
  {
    hide ById;
    for i := 0 to |fallbacks|
      invariant FirstOf(env, fallbacks) == FirstOf(env, fallbacks[i..])
    {
      assert fallbacks[i..][1..] == fallbacks[i + 1..];
      agent := ById(env, fallbacks[i]);
      if agent.Some? {
        return agent;
      }
    }
    return None;
  }

  /** The agent is the first known reference, or else the first agent of all; only without
      any agent is there no decision. The chain starts with the agent. */
  method ResolveAgent(request: Request, env: Env) returns (outcome: Outcome)
    ensures outcome.NoAgent? <==> env.agents == []
    ensures outcome.Decided? ==>
      var decision, known := outcome.decision, FirstOf(env, Tried(request, env));
      && Choose(request, env).Some? && Decides(decision, Choose(request, env).value, request, env)
      && decision.agent in env.agents && decision.agent == (if known.Some? then known.value else env.agents[0])
      && (decision.routed <==> ById(env, request.agentId).None?)
      && (decision.agent.id != "" ==> decision.chain != [] && decision.chain[0] == decision.agent.id)
  {
    hide RouteEntry, ById, FirstOf, Fallbacks, Collect, ChainRefs, EstimateTier, Tried;
    ChoosesFirstKnown(request, env);
    ChainsStart(env, request.category);
    var tier := EstimateTier(request.scopeSize, request.textLength);
    var given, category := request.agentId != "", request.category;
    var explicit := ById(env, request.agentId);
    if explicit.Some? {
      var decision := MakeDecision(explicit.value, Explicit, false, env, category, tier);
      return Decided(decision);
    }
    var entry := RouteEntry(env, category);
    var primary := ById(env, Primary(entry));
    if primary.Some? {
      var reason := if given then ExplicitMissingRoute else RouteCategory;
      var decision := MakeDecision(primary.value, reason, true, env, category, tier);
      return Decided(decision);
    }
    var fallback := FirstFallback(env, Fallbacks(entry));
    if fallback.Some? {
      var decision := MakeDecision(fallback.value, RouteFallback, true, env, category, tier);
      return Decided(decision);
    }
    var default := ById(env, env.defaultAgentId);
    if default.Some? {
      var reason := if given then ExplicitMissingDefault else DefaultFallback;
      var decision := MakeDecision(default.value, reason, true, env, category, tier);
      return Decided(decision);
    }
    if env.agents != [] {
      var reason := if given then ExplicitMissingFirst else FirstAvailable;
      var decision := MakeDecision(env.agents[0], reason, true, env, category, tier);
      return Decided(decision);
    }
    return NoAgent;
  }

  lemma ChainsStart(env: Env, category: string)
    ensures forall a :: a in env.agents && a.id != "" ==>
      Collect(env, ChainRefs(a, env, category)) != [] && Collect(env, ChainRefs(a, env, category))[0] == a.id
  {
    hide Collect, ChainRefs, RouteEntry;
    forall a | a in env.agents && a.id != ""
      ensures Collect(env, ChainRefs(a, env, category)) != []
      ensures Collect(env, ChainRefs(a, env, category))[0] == a.id
    {
      ChainStaysInCategory(a, env, category);
    }
  }

  // ---------- the cost-aware choice ----------

  ghost predicate Added(pool: seq<(string, Agent)>, ref: string) {
    exists i :: 0 <= i < |pool| && pool[i].0 == ref
  }

  /** A reference is added once, and only if it leads to a callable agent. */
  ghost function WithRef(env: Env, pool: seq<(string, Agent)>, ref: string): seq<(string, Agent)> {
    var agent := ById(env, ref);
    if ref == "" || Added(pool, ref) || agent.None? || !IsAgentCallable(agent.value) then pool
    else pool + [(ref, agent.value)]
  }

  /** Callable agents with the references they were added for. */
  ghost function Gather(env: Env, refs: seq<string>): seq<(string, Agent)> {
    if refs == [] then [] else WithRef(env, Gather(env, refs[..|refs| - 1]), refs[|refs| - 1])
  }

  function PoolRefs(env: Env, category: string): seq<string> {
    var entry := RouteEntry(env, category);
    if Names(entry) then [Primary(entry)] + Fallbacks(entry) else [env.defaultAgentId] + Ids(env.agents)
  }

  function Agents(pool: seq<(string, Agent)>): (agents: seq<Agent>)
    ensures |agents| == |pool| && forall i :: 0 <= i < |pool| ==> agents[i] == pool[i].1
  {
    seq(|pool|, i requires 0 <= i < |pool| => pool[i].1)
  }

  /** What the scorer looks up: prices and tiers of models, and success rates of agents. */
  datatype Market = Market(table: string -> Price, success: string -> Option<real>, tier: string -> Tier)

  /** The router passes no price history to the scorer. */
  function Rated(market: Market, agent: Agent): Candidate {
    Appraise(agent.economics, market.table(agent.model), HistoricalPrice(None, None), market.success(agent.id),
             market.tier(agent.model))
  }

  /** What the scorer knows about each agent of the pool. */
  function Candidates(agents: seq<Agent>, market: Market): (pool: seq<Candidate>)
    ensures |pool| == |agents| && forall i :: 0 <= i < |agents| ==> pool[i] == Rated(market, agents[i])
  {
    seq(|agents|, i requires 0 <= i < |agents| => Rated(market, agents[i]))
  }

  function Picked(agents: seq<Agent>, order: seq<nat>): (ids: seq<string>)
    requires forall p :: 0 <= p < |order| ==> order[p] < |agents|
    ensures |ids| == |order| && forall p :: 0 <= p < |order| ==> ids[p] == agents[order[p]].id
  {
    seq(|order|, p requires 0 <= p < |order| => agents[order[p]].id)
  }

  lemma AddedOne(pool: seq<(string, Agent)>, ref: string, agent: Agent, other: string)
    ensures Added(pool + [(ref, agent)], other) <==> Added(pool, other) || other == ref
  {
    var longer := pool + [(ref, agent)];
    assert longer[|pool|].0 == ref;
    assert forall j :: 0 <= j < |pool| ==> longer[j] == pool[j];
  }

  /** A reference that leads to a callable agent. */
  predicate Usable(env: Env, ref: string) {
    ref != "" && ById(env, ref).Some? && IsAgentCallable(ById(env, ref).value)
  }

  /** The pool has exactly the usable references, each once. */
  lemma {:induction false} GatherExact(env: Env, refs: seq<string>)
    ensures var pool := Gather(env, refs);
      && (forall i, j :: 0 <= i < j < |pool| ==> pool[i].0 != pool[j].0)
      && (forall ref :: Added(pool, ref) <==> ref in refs && Usable(env, ref))
  {
    hide ById, IsAgentCallable;
    if refs != [] {
      var shorter, last := refs[..|refs| - 1], refs[|refs| - 1];
      GatherExact(env, shorter);
      assert refs == shorter + [last];
      var pool := Gather(env, shorter);
      assert forall i :: 0 <= i < |pool| ==> Added(pool, pool[i].0);
      if Usable(env, last) {
        forall ref ensures Added(pool + [(last, ById(env, last).value)], ref) <==> Added(pool, ref) || ref == last {
          AddedOne(pool, last, ById(env, last).value, ref);
        }
      }
    }
  }

  /** `pool` and `seen` are what the loop keeps of the gathered references. */
  ghost predicate Keeps(pool: seq<Agent>, seen: set<string>, gathered: seq<(string, Agent)>) {
    pool == Agents(gathered) && forall ref :: ref in seen <==> Added(gathered, ref)
  }

  lemma KeepsOne(pool: seq<Agent>, seen: set<string>, gathered: seq<(string, Agent)>, ref: string, agent: Agent)
    requires Keeps(pool, seen, gathered)
    ensures Keeps(pool + [agent], seen + {ref}, gathered + [(ref, agent)])
  {
    forall other ensures Added(gathered + [(ref, agent)], other) <==> other in seen + {ref} {
      AddedOne(gathered, ref, agent, other);
    }
    hide Added;
  }

  method AddRef(env: Env, ref: string, pool: seq<Agent>, seen: set<string>, ghost gathered: seq<(string, Agent)>)
    returns (pool': seq<Agent>, seen': set<string>)
    requires Keeps(pool, seen, gathered)
    ensures Keeps(pool', seen', WithRef(env, gathered, ref))
  {
    assert ref in seen <==> Added(gathered, ref);
    hide ById, IsAgentCallable, Keeps, Added;
    if ref == "" || ref in seen {
      return pool, seen;
    }
    var agent := ById(env, ref);
    if agent.None? || !IsAgentCallable(agent.value) {
      return pool, seen;
    }
    KeepsOne(pool, seen, gathered, ref, agent.value);
    return pool + [agent.value], seen + {ref};
  }

  lemma {:induction false} GatherMembers(env: Env, refs: seq<string>, i: nat)
    requires i < |Gather(env, refs)|
    ensures var (ref, agent) := Gather(env, refs)[i];
      ref in refs && ref != "" && ById(env, ref) == Some(agent) && IsAgentCallable(agent)
  {
    hide ById, IsAgentCallable;
    var shorter := refs[..|refs| - 1];
    assert refs == shorter + [refs[|refs| - 1]];
    if i < |Gather(env, shorter)| {
      GatherMembers(env, shorter, i);
    }
  }

  lemma PoolMembers(env: Env, refs: seq<string>)
    ensures forall a :: a in Agents(Gather(env, refs)) <==>
      exists ref :: ref in refs && Usable(env, ref) && ById(env, ref) == Some(a)
  {
    hide Gather, Usable, ById, IsAgentCallable;
    GatherExact(env, refs);
    var pool := Gather(env, refs);
    forall i | 0 <= i < |pool|
      ensures pool[i].0 in refs && Usable(env, pool[i].0) && ById(env, pool[i].0) == Some(pool[i].1)
    {
      assert Added(pool, pool[i].0);
      GatherMembers(env, refs, i);
    }
    forall ref | ref in refs && Usable(env, ref) ensures ById(env, ref).Some? && ById(env, ref).value in Agents(pool) {
      assert Added(pool, ref);
      var i :| 0 <= i < |pool| && pool[i].0 == ref;
      assert Agents(pool)[i] == pool[i].1;
    }
  }

  /** The agents of the usable references, in their order and each reference once. */
  method BuildPool(env: Env, refs: seq<string>) returns (pool: seq<Agent>)
    ensures pool == Agents(Gather(env, refs))
    ensures forall a :: a in pool <==> exists ref :: ref in refs && Usable(env, ref) && ById(env, ref) == Some(a)
  {
    hide Usable, ById, IsAgentCallable;
    PoolMembers(env, refs);
    pool := [];
    var seen: set<string> := {};
    assert refs[..0] == [] && Keeps(pool, seen, []);
    for i := 0 to |refs|
      invariant Keeps(pool, seen, Gather(env, refs[..i]))
    {
      assert refs[..i + 1][..i] == refs[..i];
      pool, seen := AddRef(env, refs[i], pool, seen, Gather(env, refs[..i]));
    }
    assert refs[..|refs|] == refs;
  }

  /** The pool of a request. */
  ghost function PoolOf(env: Env, request: Request): seq<Agent> {
    Agents(Gather(env, PoolRefs(env, request.category)))
  }

  /** The order of the pool, best first. */
  ghost function Scored(env: Env, request: Request, market: Market, w: Weights): (order: seq<nat>)
    ensures |order| == |PoolOf(env, request)| && forall p :: 0 <= p < |order| ==> order[p] < |PoolOf(env, request)|
  {
    ScoreCandidates(Candidates(PoolOf(env, request), market), EstimateTier(request.scopeSize, request.textLength), w)
  }

  ghost predicate AnyUsable(env: Env, refs: seq<string>) {
    exists ref :: ref in refs && Usable(env, ref)
  }

  /** The pool is empty exactly if no reference of the request can be used. */
  lemma EmptyExactly(env: Env, request: Request)
    ensures PoolOf(env, request) == [] <==> !AnyUsable(env, PoolRefs(env, request.category))
  {
    hide Gather, PoolRefs, Usable;
    var refs := PoolRefs(env, request.category);
    GatherExact(env, refs);
    if PoolOf(env, request) != [] {
      assert Added(Gather(env, refs), Gather(env, refs)[0].0);
    }
  }

  /** An explicit agent is used as it is; otherwise the pool is scored and the chain is
      its order, best first. */
  method ResolveAgentScored(request: Request, env: Env, market: Market, w: Weights)
    returns (outcome: Outcome)
    ensures outcome.NoAgent? <==> ById(env, request.agentId).None? && PoolOf(env, request) == []
    ensures outcome.NoAgent? <==>
      ById(env, request.agentId).None? && !AnyUsable(env, PoolRefs(env, request.category))
    ensures outcome.Decided? && ById(env, request.agentId).Some? ==>
      && outcome.decision.agent == ById(env, request.agentId).value && outcome.decision.reason == Explicit
      && !outcome.decision.routed
      && outcome.decision.chain == Collect(env, ChainRefs(outcome.decision.agent, env, request.category))
    ensures outcome.Decided? && ById(env, request.agentId).None? ==>
      var agents, order := PoolOf(env, request), Scored(env, request, market, w);
      && outcome.decision.agent == agents[order[0]] && outcome.decision.chain == Picked(agents, order)
      && outcome.decision.routed
      && outcome.decision.reason == (if request.agentId != "" then ExplicitMissingScored else ScoredOptimal)
    ensures outcome.Decided? ==> outcome.decision.tier == EstimateTier(request.scopeSize, request.textLength)
  {
    hide ById, Gather, RouteEntry, Collect, Order, IsAgentCallable, FindId, PoolRefs, AnyUsable;
    EmptyExactly(env, request);
    var tier := EstimateTier(request.scopeSize, request.textLength);
    var explicit := ById(env, request.agentId);
    if explicit.Some? {
      var decision := MakeDecision(explicit.value, Explicit, false, env, request.category, tier);
      return Decided(decision);
    }
    var pool := BuildPool(env, PoolRefs(env, request.category));
    if pool == [] {
      return NoAgent;
    }
    var order := ScoreCandidates(Candidates(pool, market), tier, w);
    var reason := if request.agentId != "" then ExplicitMissingScored else ScoredOptimal;
    return Decided(Decision(pool[order[0]], reason, true, tier, Picked(pool, order)));
  }

  /** Every member of a scored chain is a callable agent named by the category's own route,
      if there is one; and a heavy request is given a light model only if that route has
      nothing else to offer. */
  lemma ScoredStaysInCategory(request: Request, env: Env, market: Market, w: Weights, p: nat)
    requires Names(RouteEntry(env, request.category))
    requires p < |Scored(env, request, market, w)|
    ensures var pool := Gather(env, PoolRefs(env, request.category));
      var entry := RouteEntry(env, request.category).value;
      var (ref, agent) := pool[Scored(env, request, market, w)[p]];
      && (ref == entry.agentId || ref in entry.fallback)
      && ById(env, ref) == Some(agent) && IsAgentCallable(agent)
  {
    hide Gather, ById, RouteEntry, IsAgentCallable, EstimateTier, ScoreCandidates;
    GatherMembers(env, PoolRefs(env, request.category), Scored(env, request, market, w)[p]);
  }

  lemma HeavyNeedsStrong(request: Request, env: Env, market: Market, w: Weights)
    requires EstimateTier(request.scopeSize, request.textLength).Heavy?
    requires PoolOf(env, request) != []
    ensures var agents := PoolOf(env, request);
      var best := agents[Scored(env, request, market, w)[0]];
      market.tier(best.model).Light? ==> forall a :: a in agents ==> market.tier(a.model).Light?
  {
    hide PoolOf, EstimateTier, ScoreCandidates, ScoreOf, ResolveModelPrice;
    var agents := PoolOf(env, request);
    BestCandidate(Candidates(agents, market), Heavy, w);
  }

  // ---------- a cheaper agent ----------

  /** The same agent with other prices. */
  function Repriced(agent: Agent, own: Economics): Agent {
    agent.(economics := own)
  }

  function Swap(a: Agent, agent: Agent, own: Economics): Agent {
    if a == agent then Repriced(agent, own) else a
  }

  /** The configuration after the prices of one agent were changed. */
  function WithEconomics(env: Env, agent: Agent, own: Economics): Env {
    env.(agents := Swapped(env.agents, agent, own))
  }

  function Swapped(agents: seq<Agent>, agent: Agent, own: Economics): (swapped: seq<Agent>)
    ensures |swapped| == |agents| && forall i :: 0 <= i < |agents| ==> swapped[i] == Swap(agents[i], agent, own)
  {
    seq(|agents|, i requires 0 <= i < |agents| => Swap(agents[i], agent, own))
  }

  function SwapFound(found: Option<Agent>, agent: Agent, own: Economics): Option<Agent> {
    if found.Some? then Some(Swap(found.value, agent, own)) else None
  }

  lemma {:induction false} FindSwapped(agents: seq<Agent>, agent: Agent, own: Economics, id: string)
    ensures FindId(Swapped(agents, agent, own), id) == SwapFound(FindId(agents, id), agent, own)
  {
    if agents != [] {
      FindSwapped(agents[1..], agent, own, id);
      assert Swapped(agents, agent, own)[1..] == Swapped(agents[1..], agent, own);
    }
  }

  lemma {:induction false} NameSwapped(
    agents: seq<Agent>, agent: Agent, own: Economics, lower: string -> string, folded: string)
    ensures FindName(Swapped(agents, agent, own), lower, folded)
         == SwapFound(FindName(agents, lower, folded), agent, own)
  {
    hide Trim;
    if agents != [] {
      NameSwapped(agents[1..], agent, own, lower, folded);
      assert Swapped(agents, agent, own)[1..] == Swapped(agents[1..], agent, own);
    }
  }

  lemma ByIdSwapped(env: Env, agent: Agent, own: Economics, ref: string)
    ensures ById(WithEconomics(env, agent, own), ref) == SwapFound(ById(env, ref), agent, own)
  {
    hide FindId, FindName, Swapped, Trim;
    FindSwapped(env.agents, agent, own, ref);
    NameSwapped(env.agents, agent, own, env.lower, env.lower(Trim(ref)));
  }

  /** The same references, with the agent repriced wherever it stands. */
  ghost predicate SwapOf(
    pool: seq<(string, Agent)>, pool': seq<(string, Agent)>, agent: Agent, own: Economics)
  {
    && |pool'| == |pool|
    && forall i :: 0 <= i < |pool| ==> pool'[i] == (pool[i].0, Swap(pool[i].1, agent, own))
  }

  lemma AddedSwapped(
    pool: seq<(string, Agent)>, pool': seq<(string, Agent)>, agent: Agent, own: Economics, ref: string)
    requires SwapOf(pool, pool', agent, own)
    ensures Added(pool', ref) <==> Added(pool, ref)
  {
    if Added(pool, ref) {
      var i :| 0 <= i < |pool| && pool[i].0 == ref;
      assert pool'[i].0 == ref;
    }
  }

  lemma {:induction false} GatherSwapped(env: Env, agent: Agent, own: Economics, refs: seq<string>)
    ensures SwapOf(Gather(env, refs), Gather(WithEconomics(env, agent, own), refs), agent, own)
  {
    hide Added, ById, WithEconomics, Trim;
    if refs != [] {
      var before, last := refs[..|refs| - 1], refs[|refs| - 1];
      GatherSwapped(env, agent, own, before);
      AddedSwapped(Gather(env, before), Gather(WithEconomics(env, agent, own), before), agent, own, last);
      ByIdSwapped(env, agent, own, last);
    }
  }

  lemma PoolSwapped(env: Env, agent: Agent, own: Economics, request: Request)
    ensures PoolOf(WithEconomics(env, agent, own), request) == Swapped(PoolOf(env, request), agent, own)
  {
    hide Gather, RouteEntry, Names;
    var env' := WithEconomics(env, agent, own);
    assert RouteEntry(env', request.category) == RouteEntry(env, request.category) by {
      SameRoutes(env, env', request.category);
    }
    assert Ids(env'.agents) == Ids(env.agents);
    GatherSwapped(env, agent, own, PoolRefs(env, request.category));
  }

  lemma SameRoutes(env: Env, env': Env, category: string)
    requires env'.routes == env.routes && env'.lower == env.lower
    ensures RouteEntry(env', category) == RouteEntry(env, category)
  {
    hide Lookup, LookupFolded, Trim;
  }

  /** The places in the pool where the agent stands. */
  function Places(agents: seq<Agent>, agent: Agent): set<nat> {
    set i: nat | i < |agents| && agents[i] == agent
  }

  lemma Lowered(agents: seq<Agent>, market: Market, agent: Agent, own: Economics)
    requires Rated(market, Repriced(agent, own)).cost <= Rated(market, agent).cost
    ensures PriceLowered(
      Candidates(agents, market), Candidates(Swapped(agents, agent, own), market), Places(agents, agent))
  {
    hide ResolveModelPrice;
  }

  /** Cheaper is never later. If an agent gets other prices in the configuration that make
      its model cost no more, it does not lose any of its places in the scored chain to
      others: wherever it stood, under whatever reference, the same entry of the pool now
      stands there or before. */
  lemma CheaperNeverLater(
    request: Request, env: Env, market: Market, w: Weights, agent: Agent, own: Economics, p: nat)
    requires w.cost >= 0.0 && Rated(market, Repriced(agent, own)).cost <= Rated(market, agent).cost
    requires p < |PoolOf(env, request)| && PoolOf(env, request)[Scored(env, request, market, w)[p]] == agent
    ensures var env' := WithEconomics(env, agent, own);
      var agents', order' := PoolOf(env', request), Scored(env', request, market, w);
      && Picked(PoolOf(env, request), Scored(env, request, market, w))[p] == agent.id
      && exists p' :: 0 <= p' <= p && p' < |order'| && order'[p'] == Scored(env, request, market, w)[p]
           && agents'[order'[p']] == Repriced(agent, own) && Picked(agents', order')[p'] == agent.id
  {
    hide PoolOf, EstimateTier, Rated, ScoreOf, Order, Place, PriceLowered;
    var env' := WithEconomics(env, agent, own);
    var agents, agents' := PoolOf(env, request), PoolOf(env', request);
    var before, after := Candidates(agents, market), Candidates(agents', market);
    var task, k := EstimateTier(request.scopeSize, request.textLength), Scored(env, request, market, w)[p];
    PoolSwapped(env, agent, own, request);
    Lowered(agents, market, agent, own);
    PlaceMonotone(before, after, task, w, Places(agents, agent), k);
    OrderPlaces(Scores(after, task, w), k);
    PlaceOf(Scores(before, task, w), p);
    var p' := Place(Scores(after, task, w), k);
    assert Scored(env', request, market, w)[p'] == k;
    assert agents'[k] == Repriced(agent, own);
  }
}
