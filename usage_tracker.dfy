/** The usage tracker: every call to the language model leaves one record of its agent and
    its token counts; the totals over all records, the totals of one agent and the list of
    per-agent totals are sums over those records. The database table becomes a sequence of
    records, oldest first. */
module UsageTracker {
  import opened Values

  /** A row of `usage_records`, without its database id and its timestamp. */
  datatype UsageRecord = UsageRecord(
    agentName: string,
    apiCallCount: int,
    inputTokens: int,
    outputTokens: int,
    totalTokens: int,
    requestType: Option<string>)

  /** The dictionary `get_total_usage` returns. */
  datatype TotalUsage = TotalUsage(
    totalApiCalls: int,
    totalInputTokens: int,
    totalOutputTokens: int,
    totalTokens: int,
    recordsCount: int)

  /** The dictionary `get_usage_by_agent` returns, and each entry of `get_all_agents_usage`. */
  datatype AgentUsage = AgentUsage(
    agentName: string,
    totalApiCalls: int,
    totalInputTokens: int,
    totalOutputTokens: int,
    totalTokens: int)

  /** The quantities the statistics add up. */
  datatype Metric = Calls | InputTokens | OutputTokens | TotalTokens

  /** What one record adds to a metric: one call, or its token count. */
  function Amount(r: UsageRecord, m: Metric): int
  {
    match m
    case Calls => 1
    case InputTokens => r.inputTokens
    case OutputTokens => r.outputTokens
    case TotalTokens => r.totalTokens
  }

  /** A metric of an agent's statistics. */
  function Of(s: AgentUsage, m: Metric): int
  {
    match m
    case Calls => s.totalApiCalls
    case InputTokens => s.totalInputTokens
    case OutputTokens => s.totalOutputTokens
    case TotalTokens => s.totalTokens
  }

  /** The record `record_usage` stores: one call, with the total of both token counts. */
  function NewRecord(agentName: string, inputTokens: int, outputTokens: int, requestType: Option<string>): (r: UsageRecord)
    ensures r.agentName == agentName && r.requestType == requestType
    ensures r.inputTokens == inputTokens && r.outputTokens == outputTokens
    ensures r.totalTokens == r.inputTokens + r.outputTokens
    ensures r.apiCallCount == 1
  {
    UsageRecord(agentName, 1, inputTokens, outputTokens, inputTokens + outputTokens, requestType)
  }

  /** The sum of a metric over records. */
  function SumBy(rs: seq<UsageRecord>, m: Metric): int
  {
    if rs == [] then 0 else SumBy(rs[..|rs| - 1], m) + Amount(rs[|rs| - 1], m)
  }

  /** Counting calls counts records. */
  lemma {:induction false} CallsCounted(rs: seq<UsageRecord>)
    ensures SumBy(rs, Calls) == |rs|
  {
    if rs != [] {
      CallsCounted(rs[..|rs| - 1]);
    }
  }

  /** A record appended adds its amount. */
  lemma SumAppend(rs: seq<UsageRecord>, r: UsageRecord, m: Metric)
    ensures SumBy(rs + [r], m) == SumBy(rs, m) + Amount(r, m)
  {
    assert (rs + [r])[..|rs|] == rs;
  }

  /** `get_total_usage` over the records `rs`. */
  function Totals(rs: seq<UsageRecord>): (t: TotalUsage)
    ensures t.totalApiCalls == |rs| && t.recordsCount == t.totalApiCalls
    ensures t.totalInputTokens == SumBy(rs, InputTokens)
    ensures t.totalOutputTokens == SumBy(rs, OutputTokens)
    ensures t.totalTokens == SumBy(rs, TotalTokens)
  {
    var calls := |rs|;
    TotalUsage(calls, SumBy(rs, InputTokens), SumBy(rs, OutputTokens), SumBy(rs, TotalTokens), calls)
  }

  /** Recording grows each total by the new record's share. */
  lemma TotalsAfterRecord(rs: seq<UsageRecord>, agentName: string, inputTokens: int, outputTokens: int, requestType: Option<string>)
    ensures var before := Totals(rs); var after := Totals(rs + [NewRecord(agentName, inputTokens, outputTokens, requestType)]);
      && after.totalApiCalls == before.totalApiCalls + 1
      && after.totalInputTokens == before.totalInputTokens + inputTokens
      && after.totalOutputTokens == before.totalOutputTokens + outputTokens
      && after.totalTokens == before.totalTokens + inputTokens + outputTokens
  {
    var r := NewRecord(agentName, inputTokens, outputTokens, requestType);
    SumAppend(rs, r, InputTokens);
    SumAppend(rs, r, OutputTokens);
    SumAppend(rs, r, TotalTokens);
  }

  /** The records of one agent, in their order: the query filtered on `agent_name`. */
  function ForAgent(rs: seq<UsageRecord>, agentName: string): seq<UsageRecord>
  {
    if rs == [] then []
    else if rs[|rs| - 1].agentName == agentName then ForAgent(rs[..|rs| - 1], agentName) + [rs[|rs| - 1]]
    else ForAgent(rs[..|rs| - 1], agentName)
  }

  /** The filter keeps exactly the agent's records, each as often as it occurs. */
  lemma {:induction false} ForAgentKeeps(rs: seq<UsageRecord>, agentName: string)
    ensures forall r :: r in ForAgent(rs, agentName) ==> r.agentName == agentName
    ensures forall r: UsageRecord :: r.agentName == agentName ==> multiset(ForAgent(rs, agentName))[r] == multiset(rs)[r]
    ensures |ForAgent(rs, agentName)| <= |rs|
  {
    if rs != [] {
      var init := rs[..|rs| - 1];
      ForAgentKeeps(init, agentName);
      assert rs == init + [rs[|rs| - 1]];
    }
  }

  /** An agent without records has none in the filter. */
  lemma {:induction false} ForAgentNone(rs: seq<UsageRecord>, agentName: string)
    requires forall k :: 0 <= k < |rs| ==> rs[k].agentName != agentName
    ensures ForAgent(rs, agentName) == []
  {
    if rs != [] {
      ForAgentNone(rs[..|rs| - 1], agentName);
    }
  }

  /** A record appended joins the filter of its own agent only. */
  lemma ForAgentAppend(rs: seq<UsageRecord>, r: UsageRecord, agentName: string)
    ensures ForAgent(rs + [r], agentName) == if r.agentName == agentName then ForAgent(rs, agentName) + [r] else ForAgent(rs, agentName)
  {
    assert (rs + [r])[..|rs|] == rs;
  }

  /** `get_usage_by_agent`: the statistics of the agent's records. */
  function UsageOf(rs: seq<UsageRecord>, agentName: string): AgentUsage
  {
    var mine := ForAgent(rs, agentName);
    AgentUsage(agentName, |mine|, SumBy(mine, InputTokens), SumBy(mine, OutputTokens), SumBy(mine, TotalTokens))
  }

  /** Each metric of an agent's statistics is the sum over the agent's records. */
  lemma UsageOfMetric(rs: seq<UsageRecord>, agentName: string, m: Metric)
    ensures Of(UsageOf(rs, agentName), m) == SumBy(ForAgent(rs, agentName), m)
  {
    if m == Calls {
      CallsCounted(ForAgent(rs, agentName));
    }
  }

  /** An agent that never called has all statistics zero. */
  lemma UsageOfAbsent(rs: seq<UsageRecord>, agentName: string)
    requires forall k :: 0 <= k < |rs| ==> rs[k].agentName != agentName
    ensures UsageOf(rs, agentName) == AgentUsage(agentName, 0, 0, 0, 0)
  {
    ForAgentNone(rs, agentName);
  }

  /** An agent's statistics with one more record of that agent counted. */
  function Added(s: AgentUsage, r: UsageRecord): AgentUsage
  {
    AgentUsage(s.agentName, s.totalApiCalls + 1, s.totalInputTokens + r.inputTokens,
      s.totalOutputTokens + r.outputTokens, s.totalTokens + r.totalTokens)
  }

  /** A record appended grows its own agent's statistics by its share, and no other's. */
  lemma UsageOfAppend(rs: seq<UsageRecord>, r: UsageRecord, agentName: string)
    ensures UsageOf(rs + [r], agentName) == if r.agentName == agentName then Added(UsageOf(rs, agentName), r) else UsageOf(rs, agentName)
  {
    ForAgentAppend(rs, r, agentName);
    var mine := ForAgent(rs, agentName);
    if r.agentName == agentName {
      SumAppend(mine, r, InputTokens);
      SumAppend(mine, r, OutputTokens);
      SumAppend(mine, r, TotalTokens);
    }
  }

  /** The agents of the records, each once, in the order of their first record. */
  function Agents(rs: seq<UsageRecord>): seq<string>
  {
    if rs == [] then []
    else
      var earlier := Agents(rs[..|rs| - 1]);
      if rs[|rs| - 1].agentName in earlier then earlier else earlier + [rs[|rs| - 1].agentName]
  }

  predicate Distinct(names: seq<string>)
  {
    forall i, j :: 0 <= i < j < |names| ==> names[i] != names[j]
  }

  /** The agents are distinct and are exactly the names on the records. */
  lemma {:induction false} AgentsAreNames(rs: seq<UsageRecord>)
    ensures Distinct(Agents(rs))
    ensures forall a :: a in Agents(rs) <==> exists k :: 0 <= k < |rs| && rs[k].agentName == a
  {
    if rs != [] {
      var init := rs[..|rs| - 1];
      AgentsAreNames(init);
      forall a ensures a in Agents(rs) <==> exists k :: 0 <= k < |rs| && rs[k].agentName == a {
        if a in Agents(rs) && a != rs[|rs| - 1].agentName {
          var k :| 0 <= k < |init| && init[k].agentName == a;
          assert rs[k] == init[k];
        }
        if exists k :: 0 <= k < |rs| && rs[k].agentName == a {
          var k :| 0 <= k < |rs| && rs[k].agentName == a;
          if k < |init| {
            assert init[k] == rs[k];
          }
        }
      }
    }
  }

  /** Each agent's record is ahead of the first record of any later agent. */
  lemma AgentsAppend(rs: seq<UsageRecord>, r: UsageRecord)
    ensures Agents(rs + [r]) == if r.agentName in Agents(rs) then Agents(rs) else Agents(rs) + [r.agentName]
  {
    assert (rs + [r])[..|rs|] == rs;
  }

  /** The agents come in the order of their first records: an agent's every record comes
      after some record of each agent listed before it. */
  lemma {:induction false} AgentsInFirstOrder(rs: seq<UsageRecord>)
    ensures forall i, j, k :: 0 <= i < j < |Agents(rs)| && 0 <= k < |rs| && rs[k].agentName == Agents(rs)[j] ==>
      exists k' :: 0 <= k' < k && rs[k'].agentName == Agents(rs)[i]
  {
    if rs != [] {
      var init := rs[..|rs| - 1];
      var r := rs[|rs| - 1];
      assert rs == init + [r];
      AgentsInFirstOrder(init);
      AgentsAreNames(init);
      AgentsAppend(init, r);
      var before := Agents(init);
      forall i, j, k | 0 <= i < j < |Agents(rs)| && 0 <= k < |rs| && rs[k].agentName == Agents(rs)[j]
        ensures exists k' :: 0 <= k' < k && rs[k'].agentName == Agents(rs)[i]
      {
        assert i < |before| && Agents(rs)[i] == before[i];
        if k < |init| {
          assert init[k] == rs[k];
          assert init[k].agentName in before;
          assert j < |before|;
          var k' :| 0 <= k' < k && init[k'].agentName == before[i];
          assert rs[k'] == init[k'];
        } else {
          assert before[i] in before;
          var k' :| 0 <= k' < |init| && init[k'].agentName == before[i];
          assert rs[k'] == init[k'];
        }
      }
    }
  }

  /** The statistics of the agents `names`, in that order. */
  function Entries(rs: seq<UsageRecord>, names: seq<string>): (es: seq<AgentUsage>)
    ensures |es| == |names|
  {
    if names == [] then [] else Entries(rs, names[..|names| - 1]) + [UsageOf(rs, names[|names| - 1])]
  }

  /** The entry at each position is the statistics of the agent at that position. */
  lemma {:induction false} EntriesAt(rs: seq<UsageRecord>, names: seq<string>)
    ensures forall i :: 0 <= i < |names| ==> Entries(rs, names)[i] == UsageOf(rs, names[i])
  {
    if names != [] {
      EntriesAt(rs, names[..|names| - 1]);
    }
  }

  /** `get_all_agents_usage`: one entry per agent, in the order of the agents' first records. */
  function AllAgentsUsage(rs: seq<UsageRecord>): seq<AgentUsage>
  {
    Entries(rs, Agents(rs))
  }

  /** One entry per agent, each the statistics of that agent's records, and an entry for
      every agent that has a record. */
  lemma AllAgentsEntries(rs: seq<UsageRecord>)
    ensures |AllAgentsUsage(rs)| == |Agents(rs)|
    ensures forall j :: 0 <= j < |Agents(rs)| ==> AllAgentsUsage(rs)[j] == UsageOf(rs, Agents(rs)[j])
    ensures forall k :: 0 <= k < |rs| ==> rs[k].agentName in Agents(rs)
    ensures Distinct(Agents(rs))
  {
    EntriesAt(rs, Agents(rs));
    AgentsAreNames(rs);
  }

  /** The sum of a metric over a list of statistics. */
  function SumStats(es: seq<AgentUsage>, m: Metric): int
  {
    if es == [] then 0 else SumStats(es[..|es| - 1], m) + Of(es[|es| - 1], m)
  }

  /** Over no records every agent's entry is zero. */
  lemma {:induction false} EntriesOfNothing(names: seq<string>, m: Metric)
    ensures SumStats(Entries([], names), m) == 0
  {
    if names != [] {
      var init := names[..|names| - 1];
      EntriesOfNothing(init, m);
      assert Entries([], names)[..|init|] == Entries([], init);
      UsageOfMetric([], names[|names| - 1], m);
    }
  }

  /** A record appended adds its amount to the entries of distinct agents when its agent is
      one of them, and nothing otherwise. */
  lemma {:induction false} EntriesAppend(rs: seq<UsageRecord>, r: UsageRecord, names: seq<string>, m: Metric)
    requires Distinct(names)
    ensures SumStats(Entries(rs + [r], names), m) == SumStats(Entries(rs, names), m) + (if r.agentName in names then Amount(r, m) else 0)
  {
    if names != [] {
      var init := names[..|names| - 1];
      var last := names[|names| - 1];
      assert Distinct(init);
      EntriesAppend(rs, r, init, m);
      assert Entries(rs + [r], names)[..|init|] == Entries(rs + [r], init);
      assert Entries(rs, names)[..|init|] == Entries(rs, init);
      UsageOfMetric(rs + [r], last, m);
      UsageOfMetric(rs, last, m);
      ForAgentAppend(rs, r, last);
      if r.agentName == last {
        SumAppend(ForAgent(rs, last), r, m);
        assert r.agentName !in init;
      }
      assert r.agentName in names <==> r.agentName in init || r.agentName == last;
    }
  }

  /** Over distinct agents that include every record's agent, the entries add up to the
      total over all records. */
  lemma {:induction false} EntriesCover(rs: seq<UsageRecord>, names: seq<string>, m: Metric)
    requires Distinct(names)
    requires forall k :: 0 <= k < |rs| ==> rs[k].agentName in names
    ensures SumStats(Entries(rs, names), m) == SumBy(rs, m)
  {
    if rs == [] {
      EntriesOfNothing(names, m);
    } else {
      var init := rs[..|rs| - 1];
      var r := rs[|rs| - 1];
      assert rs == init + [r];
      EntriesCover(init, names, m);
      EntriesAppend(init, r, names, m);
      SumAppend(init, r, m);
    }
  }

  /** Summing any metric over the per-agent entries gives the global total. */
  lemma AllAgentsAddUp(rs: seq<UsageRecord>, m: Metric)
    ensures SumStats(AllAgentsUsage(rs), m) == SumBy(rs, m)
  {
    AgentsAreNames(rs);
    EntriesCover(rs, Agents(rs), m);
  }

  /** The state of `get_all_agents_usage` after the records `done`: the agents in order of
      their first record, each with an entry holding its statistics. */
  ghost predicate Tallied(done: seq<UsageRecord>, order: seq<string>, stats: map<string, AgentUsage>)
  {
    && order == Agents(done)
    && (forall a :: a in stats <==> a in order)
    && (forall a :: a in order ==> stats[a] == UsageOf(done, a))
  }

  /** The state while the record `r` is being counted: its agent has an entry, and no
      entry counts `r` yet. */
  ghost predicate Opened(done: seq<UsageRecord>, r: UsageRecord, order: seq<string>, stats: map<string, AgentUsage>)
  {
    && order == Agents(done + [r])
    && (forall a :: a in stats <==> a in order)
    && (forall a :: a in order ==> stats[a] == UsageOf(done, a))
  }

  /** A first record of an agent opens an entry of zeros for it at the end of the order. */
  lemma OpenAgent(done: seq<UsageRecord>, r: UsageRecord, order: seq<string>, stats: map<string, AgentUsage>)
    requires Tallied(done, order, stats) && r.agentName !in stats
    ensures Opened(done, r, order + [r.agentName], stats[r.agentName := AgentUsage(r.agentName, 0, 0, 0, 0)])
  {
    AgentsAreNames(done);
    UsageOfAbsent(done, r.agentName);
    AgentsAppend(done, r);
  }

  /** Another record of an agent with an entry leaves the agents as they are. */
  lemma KnownAgent(done: seq<UsageRecord>, r: UsageRecord, order: seq<string>, stats: map<string, AgentUsage>)
    requires Tallied(done, order, stats) && r.agentName in stats
    ensures Opened(done, r, order, stats)
  {
    AgentsAppend(done, r);
  }

  /** Counting the record in its agent's entry gives the state after it. */
  lemma TallyStep(done: seq<UsageRecord>, r: UsageRecord, order: seq<string>, stats: map<string, AgentUsage>)
    requires Opened(done, r, order, stats)
    ensures r.agentName in stats
    ensures Tallied(done + [r], order, stats[r.agentName := Added(stats[r.agentName], r)])
  {
    AgentsAppend(done, r);
    if r.agentName !in Agents(done) {
      assert order[|order| - 1] == r.agentName;
    }
    assert r.agentName in stats;
    var stats' := stats[r.agentName := Added(stats[r.agentName], r)];
    assert stats'.Keys == stats.Keys;
    TallyValues(done, r, order, stats);
  }

  /** Counting a record changes its own agent's entry by its share and no other's. */
  lemma TallyValues(done: seq<UsageRecord>, r: UsageRecord, order: seq<string>, stats: map<string, AgentUsage>)
    requires r.agentName in stats
    requires forall a :: a in order ==> a in stats && stats[a] == UsageOf(done, a)
    ensures forall a :: a in order ==> stats[r.agentName := Added(stats[r.agentName], r)][a] == UsageOf(done + [r], a)
  {
    forall a | a in order ensures stats[r.agentName := Added(stats[r.agentName], r)][a] == UsageOf(done + [r], a) {
      UsageOfAppend(done, r, a);
    }
  }

  /** The entries in the order of the agents are the usage of every agent. */
  lemma TalliedEntries(rs: seq<UsageRecord>, order: seq<string>, stats: map<string, AgentUsage>)
    requires Tallied(rs, order, stats)
    ensures seq(|order|, j requires 0 <= j < |order| => stats[order[j]]) == AllAgentsUsage(rs)
  {
    EntriesAt(rs, order);
  }

  /** The tracker over its table of records. */
  class Tracker {
    var records: seq<UsageRecord>

    /** A tracker over the records already in the table. */
    constructor(stored: seq<UsageRecord>)
      ensures records == stored
    {
      records := stored;
    }

    /** `record_usage`: appends exactly one record. */
    method RecordUsage(agentName: string, inputTokens: int, outputTokens: int, requestType: Option<string>)
      modifies this
      ensures records == old(records) + [NewRecord(agentName, inputTokens, outputTokens, requestType)]
    {
      records := records + [NewRecord(agentName, inputTokens, outputTokens, requestType)];
    }

    /** `get_total_usage`. */
    function GetTotalUsage(): (t: TotalUsage)
      reads this
      ensures t.totalApiCalls == |records| && t.recordsCount == |records|
      ensures t.totalInputTokens == SumBy(records, InputTokens) && t.totalOutputTokens == SumBy(records, OutputTokens)
      ensures t.totalTokens == SumBy(records, TotalTokens)
    {
      Totals(records)
    }

    /** `get_usage_by_agent`. */
    function GetUsageByAgent(agentName: string): (u: AgentUsage)
      reads this
      ensures u.agentName == agentName
      ensures u.totalApiCalls == |ForAgent(records, agentName)|
      ensures forall m :: Of(u, m) == SumBy(ForAgent(records, agentName), m)
    {
      forall m ensures Of(UsageOf(records, agentName), m) == SumBy(ForAgent(records, agentName), m) {
        UsageOfMetric(records, agentName, m);
      }
      UsageOf(records, agentName)
    }

    /** `get_all_agents_usage`: one pass over the records, creating an agent's entry at its
        first record and adding each record to its agent's entry. */
    method GetAllAgentsUsage() returns (usage: seq<AgentUsage>)
      ensures usage == AllAgentsUsage(records)
    {
      var stats: map<string, AgentUsage> := map[];
      var order: seq<string> := [];
      var i := 0;
      while i < |records|
        invariant 0 <= i <= |records|
        invariant Tallied(records[..i], order, stats)
      {
        var record := records[i];
        assert records[..i + 1] == records[..i] + [record];
        if record.agentName !in stats {
          OpenAgent(records[..i], record, order, stats);
          stats := stats[record.agentName := AgentUsage(record.agentName, 0, 0, 0, 0)];
          order := order + [record.agentName];
        } else {
          KnownAgent(records[..i], record, order, stats);
        }
        TallyStep(records[..i], record, order, stats);
        stats := stats[record.agentName := Added(stats[record.agentName], record)];
        i := i + 1;
      }
      assert records[..i] == records;
      TalliedEntries(records, order, stats);
      usage := seq(|order|, j requires 0 <= j < |order| => stats[order[j]]);
    }
  }
}
