/** The reconciliation as a specification over the account: each function
    of the orchestrator (fetch, delete and create the lists and the rule) as a
    function from the account before to its outcome, and the top-level
    sequence of four stages run by the sequential runner. Both variants are
    instances: src/index.ts with its two sentinels and the validated,
    de-duplicated domain set; index.ts with one sentinel and the raw feed. */
module Workflow {
  import opened Seqs
  import opened Text
  import opened Chunking
  import opened Provider
  import opened Ownership
  import opened Traffic
  import opened Runner
  import opened Domains

  const AdServersLimit: nat := 100000
  const ListItemsLimit: nat := 1000

  /** The name of the list made from chunk k (counted from 0). */
  function ListName(k: nat): string
  {
    "Ad servers " + DecimalString(k + 1)
  }

  /** The deferred calls that the inner runs perform: `deleteList(client, id)`
      and `createAdServerList(client, name, items)`. */
  datatype Call = DeleteListTask(id: string) | CreateListTask(name: string, items: seq<string>)

  /** The four deferred stages of the top-level sequence. */
  datatype Stage = DeleteRuleStage | DeleteListsStage | CreateListsStage(items: seq<string>) | CreateRuleStage

  /** Anything the runner is given: the thunk array is untyped in the source. */
  datatype Task = CallTask(call: Call) | StageTask(stage: Stage)

  function PerformCall(a: Account, m: Markers, c: Call): Outcome
  {
    match c
    case DeleteListTask(id) => DeleteListCall(a, id)
    case CreateListTask(name, items) => CreateListCall(a, name, m.list, "DOMAIN", items)
  }

  function CallStep(m: Markers): (Account, Call) -> Outcome
  {
    (a: Account, c: Call) => PerformCall(a, m, c)
  }

  /** fetchAdServerLists: the lists carrying the list sentinel. */
  function FetchAdServerListsSpec(a: Account, marker: string): Reply<seq<GatewayList>>
  {
    var r := ListListsCall(a);
    Reply(r.ok, OwnedLists(r.value, marker), r.account)
  }

  /** lists.map(({ id }) => () => deleteList(client, id!)) */
  function DeleteCalls(lists: seq<GatewayList>): seq<Call>
  {
    seq(|lists|, k requires 0 <= k < |lists| => DeleteListTask(lists[k].id))
  }

  /** chunks.map((items, index) => () => createAdServerList(client, `Ad servers ${index + 1}`, items)) */
  function CreateCalls(chunks: seq<seq<string>>): seq<Call>
  {
    seq(|chunks|, k requires 0 <= k < |chunks| => CreateListTask(ListName(k), chunks[k]))
  }

  /** fetchBlockAdsRule: the first rule carrying the rule sentinel, if any. */
  function FetchBlockAdsRuleSpec(a: Account, marker: string): Reply<Option<GatewayRule>>
  {
    var r := ListRulesCall(a);
    Reply(r.ok, FindRule(r.value, marker), r.account)
  }

  function DeleteExistingBlockAdsRuleSpec(a: Account, m: Markers): Outcome
  {
    var r := FetchBlockAdsRuleSpec(a, m.rule);
    if !r.ok then Outcome(false, r.account)
    else match r.value
      case None => Outcome(true, r.account)
      case Some(q) => DeleteRuleCall(r.account, q.id)
  }

  function DeleteExistingAdServerListsSpec(a: Account, m: Markers): Outcome
  {
    var r := FetchAdServerListsSpec(a, m.list);
    if !r.ok then Outcome(false, r.account)
    else RunSpec(r.account, DeleteCalls(r.value), CallStep(m))
  }

  function CreateAdServerListsSpec(a: Account, m: Markers, items: seq<string>): Outcome
  {
    RunSpec(a, CreateCalls(Chunks(items, ListItemsLimit)), CallStep(m))
  }

  function CreateBlockAdsRuleSpec(a: Account, m: Markers): Outcome
  {
    var r := FetchAdServerListsSpec(a, m.list);
    if !r.ok then Outcome(false, r.account)
    else CreateRuleCall(r.account, "Block ads", m.rule, "block", TrafficExpression(r.value), true)
  }

  function PerformStage(a: Account, m: Markers, s: Stage): Outcome
  {
    match s
    case DeleteRuleStage => DeleteExistingBlockAdsRuleSpec(a, m)
    case DeleteListsStage => DeleteExistingAdServerListsSpec(a, m)
    case CreateListsStage(items) => CreateAdServerListsSpec(a, m, items)
    case CreateRuleStage => CreateBlockAdsRuleSpec(a, m)
  }

  function PerformTask(a: Account, m: Markers, t: Task): Outcome
  {
    match t
    case CallTask(c) => PerformCall(a, m, c)
    case StageTask(s) => PerformStage(a, m, s)
  }

  function TaskStep(m: Markers): (Account, Task) -> Outcome
  {
    (a: Account, t: Task) => PerformTask(a, m, t)
  }

  /** adservers.slice(0, n) */
  function Take(s: seq<string>, n: nat): (r: seq<string>)
    ensures |r| <= n && |r| <= |s| && r == s[..|r|]
    ensures |s| >= n ==> |r| == n
    ensures |s| <= n ==> r == s
  {
    if |s| <= n then s else s[..n]
  }

  /** The top-level sequence: delete the rule, delete the lists, create the
      lists from the first 100000 domains, create the rule. */
  function Stages(domains: seq<string>): seq<Task>
  {
    [StageTask(DeleteRuleStage), StageTask(DeleteListsStage),
     StageTask(CreateListsStage(Take(domains, AdServersLimit))), StageTask(CreateRuleStage)]
  }

  function Reconcile(a: Account, m: Markers, domains: seq<string>): Outcome
  {
    RunSpec(a, Stages(domains), TaskStep(m))
  }

  /** src/index.ts: the domain set built from the two feed bodies. */
  function ReconcileCurrent(a: Account, adguardBody: string, blacklistBody: string): Outcome
  {
    Reconcile(a, Current, AdServers(adguardBody, blacklistBody))
  }

  /** index.ts: the raw lines of the one feed body. */
  function ReconcileLegacy(a: Account, body: string): Outcome
  {
    Reconcile(a, Legacy, RawFeed(body))
  }
}
