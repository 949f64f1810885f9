/** The orchestrator as the programs run it: each function of src/index.ts
    and index.ts that talks to the provider is a method on the SDK client
    (`Gateway`), proved to leave the account, and to answer, exactly as its
    specification in `Workflow` says. `deleteList` and `deleteRule` are the
    client's own `DeleteList` and `DeleteRule`. */
module Orchestrator {
  import opened Seqs
  import opened Chunking
  import opened Provider
  import opened Ownership
  import opened Traffic
  import opened Runner
  import opened Workflow
  import opened Domains

  /** Stages run inner sequences of calls; calls run nothing. */
  function Rank(t: Task): nat
  {
    if t.StageTask? then 1 else 0
  }

  method FetchAdServerLists(g: Gateway, marker: string) returns (ok: bool, lists: seq<GatewayList>)
    modifies g
    ensures Reply(ok, lists, g.State()) == FetchAdServerListsSpec(old(g.State()), marker)
  {
    var result;
    ok, result := g.ListLists();
    lists := OwnedLists(result, marker);
  }

  method DeleteExistingAdServerLists(g: Gateway, m: Markers) returns (ok: bool)
    modifies g
    ensures Outcome(ok, g.State()) == DeleteExistingAdServerListsSpec(old(g.State()), m)
    decreases 1, 0
  {
    var fetched, lists := FetchAdServerLists(g, m.list);
    if !fetched {
      return false;
    }
    var tasks := seq(|lists|, k requires 0 <= k < |lists| => CallTask(DeleteListTask(lists[k].id)));
    ghost var b := g.State();
    ok := RunPromisesInSequence(g, m, tasks, 0);
    RunMapped(b, tasks, DeleteCalls(lists), TaskStep(m), CallStep(m));
  }

  method CreateAdServerList(g: Gateway, m: Markers, name: string, items: seq<string>) returns (ok: bool)
    modifies g
    ensures Outcome(ok, g.State()) == CreateListCall(old(g.State()), name, m.list, "DOMAIN", items)
  {
    ok := g.CreateList(name, m.list, "DOMAIN", items);
  }

  method CreateAdServerLists(g: Gateway, m: Markers, items: seq<string>) returns (ok: bool)
    modifies g
    ensures Outcome(ok, g.State()) == CreateAdServerListsSpec(old(g.State()), m, items)
    decreases 1, 0
  {
    var chunks := Chunk(items, ListItemsLimit);
    var tasks := seq(|chunks|, k requires 0 <= k < |chunks| => CallTask(CreateListTask(ListName(k), chunks[k])));
    ghost var b := g.State();
    ok := RunPromisesInSequence(g, m, tasks, 0);
    RunMapped(b, tasks, CreateCalls(chunks), TaskStep(m), CallStep(m));
  }

  method FetchBlockAdsRule(g: Gateway, marker: string) returns (ok: bool, rule: Option<GatewayRule>)
    modifies g
    ensures Reply(ok, rule, g.State()) == FetchBlockAdsRuleSpec(old(g.State()), marker)
  {
    var result;
    ok, result := g.ListRules();
    rule := FindRule(result, marker);
  }

  method DeleteExistingBlockAdsRule(g: Gateway, m: Markers) returns (ok: bool)
    modifies g
    ensures Outcome(ok, g.State()) == DeleteExistingBlockAdsRuleSpec(old(g.State()), m)
  {
    var fetched, rule := FetchBlockAdsRule(g, m.rule);
    if !fetched {
      return false;
    }
    if rule.None? {
      return true;
    }
    ok := g.DeleteRule(rule.value.id);
  }

  method CreateBlockAdsRule(g: Gateway, m: Markers) returns (ok: bool)
    modifies g
    ensures Outcome(ok, g.State()) == CreateBlockAdsRuleSpec(old(g.State()), m)
  {
    var fetched, lists := FetchAdServerLists(g, m.list);
    if !fetched {
      return false;
    }
    ok := g.CreateRule("Block ads", m.rule, "block", TrafficExpression(lists), true);
  }

  /** Calling one deferred task of the runner. */
  method Perform(g: Gateway, m: Markers, t: Task) returns (ok: bool)
    modifies g
    ensures Outcome(ok, g.State()) == PerformTask(old(g.State()), m, t)
    decreases Rank(t), 1
  {
    match t
    case CallTask(DeleteListTask(id)) =>
      ok := g.DeleteList(id);
    case CallTask(CreateListTask(name, items)) =>
      ok := CreateAdServerList(g, m, name, items);
    case StageTask(DeleteRuleStage) =>
      ok := DeleteExistingBlockAdsRule(g, m);
    case StageTask(DeleteListsStage) =>
      ok := DeleteExistingAdServerLists(g, m);
    case StageTask(CreateListsStage(items)) =>
      ok := CreateAdServerLists(g, m, items);
    case StageTask(CreateRuleStage) =>
      ok := CreateBlockAdsRule(g, m);
  }

  /** runPromisesInSequence: await each task in turn; a rejection ends the
      loop and rejects the whole run. */
  method RunPromisesInSequence(g: Gateway, m: Markers, tasks: seq<Task>, ghost level: nat) returns (ok: bool)
    requires forall i :: 0 <= i < |tasks| ==> Rank(tasks[i]) <= level
    modifies g
    ensures Outcome(ok, g.State()) == RunSpec(old(g.State()), tasks, TaskStep(m))
    decreases level, 2
  {
    var i := 0;
    while i < |tasks|
      invariant 0 <= i <= |tasks|
      invariant RunSpec(old(g.State()), tasks, TaskStep(m)) == RunSpec(g.State(), tasks[i..], TaskStep(m))
    {
      assert tasks[i..][0] == tasks[i] && tasks[i..][1..] == tasks[i + 1..];
      var done := Perform(g, m, tasks[i]);
      if !done {
        return false;
      }
      i := i + 1;
    }
    return true;
  }

  /** The top-level sequence of src/index.ts, given the two feed bodies. */
  method RunCurrent(g: Gateway, adguardBody: string, blacklistBody: string) returns (ok: bool)
    modifies g
    ensures Outcome(ok, g.State()) == ReconcileCurrent(old(g.State()), adguardBody, blacklistBody)
  {
    var adservers := AdServers(adguardBody, blacklistBody);
    ok := RunPromisesInSequence(g, Current, Stages(adservers), 1);
  }

  /** The top-level sequence of index.ts, given the one feed body. */
  method RunLegacy(g: Gateway, body: string) returns (ok: bool)
    modifies g
    ensures Outcome(ok, g.State()) == ReconcileLegacy(old(g.State()), body)
  {
    var adservers := RawFeed(body);
    ok := RunPromisesInSequence(g, Legacy, Stages(adservers), 1);
  }
}
