/** The Zero Trust gateway account as the reconciler reaches it through the
    Cloudflare SDK (`client.zeroTrust.gateway.lists.*` and `.rules.*`).

    The account is a value: its DNS lists and its rules in the order the
    provider returns them, the identifiers it will hand out to the next
    creations (`supply`), the ordinals of the calls that will fail (`failing`:
    call number n, counted from 0 over the whole log, fails when n is in it),
    and the log of every call made so far with its outcome. */
module Provider {
  import opened Seqs

  datatype GatewayList = GatewayList(id: string, name: string, description: string, listType: string, items: seq<string>)

  datatype GatewayRule = GatewayRule(id: string, name: string, description: string, action: string, traffic: string, enabled: bool)

  /** One SDK request. */
  datatype Op =
    | ListLists
    | DeleteList(id: string)
    | CreateList(name: string)
    | ListRules
    | DeleteRule(id: string)
    | CreateRule(name: string)

  datatype Entry = Entry(op: Op, ok: bool)

  datatype Account = Account(
    lists: seq<GatewayList>,
    rules: seq<GatewayRule>,
    supply: seq<string>,
    failing: set<nat>,
    log: seq<Entry>)

  /** The settled value of a request that answers with data. */
  datatype Reply<T> = Reply(ok: bool, value: T, account: Account)

  /** The settled value of a request, or of a task, that answers with nothing. */
  datatype Outcome = Outcome(ok: bool, account: Account)

  /** The next request is one that the provider rejects. */
  predicate Fails(a: Account)
  {
    |a.log| in a.failing
  }

  function Record(a: Account, op: Op, ok: bool): Account
  {
    a.(log := a.log + [Entry(op, ok)])
  }

  function IdIsNot(id: string): GatewayList -> bool
  {
    (l: GatewayList) => l.id != id
  }

  function RuleIdIsNot(id: string): GatewayRule -> bool
  {
    (r: GatewayRule) => r.id != id
  }

  /** What the provider keeps after deleting the list `id`. */
  function RemoveList(lists: seq<GatewayList>, id: string): seq<GatewayList>
  {
    Filter(lists, IdIsNot(id))
  }

  function RemoveRule(rules: seq<GatewayRule>, id: string): seq<GatewayRule>
  {
    Filter(rules, RuleIdIsNot(id))
  }

  /** gateway.lists.list: every list of the account. */
  function ListListsCall(a: Account): (r: Reply<seq<GatewayList>>)
    ensures r.ok <==> !Fails(a)
    ensures r.account == a.(log := a.log + [Entry(ListLists, r.ok)])
    ensures r.ok ==> r.value == a.lists
  {
    if Fails(a) then Reply(false, [], Record(a, ListLists, false))
    else Reply(true, a.lists, Record(a, ListLists, true))
  }

  /** gateway.lists.delete(id). */
  function DeleteListCall(a: Account, id: string): (r: Outcome)
    ensures r.ok <==> !Fails(a)
    ensures r.account.log == a.log + [Entry(DeleteList(id), r.ok)]
    ensures r.account.rules == a.rules && r.account.supply == a.supply && r.account.failing == a.failing
    ensures forall l :: l in r.account.lists <==> l in a.lists && (l.id != id || !r.ok)
  {
    if Fails(a) then Outcome(false, Record(a, DeleteList(id), false))
    else
      assert forall l :: l in RemoveList(a.lists, id) <==> l in a.lists && l.id != id by {
        forall l ensures l in RemoveList(a.lists, id) <==> l in a.lists && l.id != id {
          FilterMembers(a.lists, IdIsNot(id), l);
        }
      }
      Outcome(true, Record(a.(lists := RemoveList(a.lists, id)), DeleteList(id), true))
  }

  /** gateway.lists.create: the provider gives the new list the next fresh
      identifier and appends it; with no identifier left it rejects the request. */
  function CreateListCall(a: Account, name: string, description: string, listType: string, items: seq<string>): (r: Outcome)
    ensures r.ok <==> !Fails(a) && a.supply != []
    ensures r.account.log == a.log + [Entry(CreateList(name), r.ok)]
    ensures r.account.rules == a.rules && r.account.failing == a.failing
    ensures r.ok ==> r.account.lists == a.lists + [GatewayList(a.supply[0], name, description, listType, items)]
    ensures r.ok ==> r.account.supply == a.supply[1..]
    ensures !r.ok ==> r.account.lists == a.lists && r.account.supply == a.supply
  {
    if Fails(a) || a.supply == [] then Outcome(false, Record(a, CreateList(name), false))
    else
      var l := GatewayList(a.supply[0], name, description, listType, items);
      Outcome(true, Record(a.(lists := a.lists + [l], supply := a.supply[1..]), CreateList(name), true))
  }

  /** gateway.rules.list: every rule of the account. */
  function ListRulesCall(a: Account): (r: Reply<seq<GatewayRule>>)
    ensures r.ok <==> !Fails(a)
    ensures r.account == a.(log := a.log + [Entry(ListRules, r.ok)])
    ensures r.ok ==> r.value == a.rules
  {
    if Fails(a) then Reply(false, [], Record(a, ListRules, false))
    else Reply(true, a.rules, Record(a, ListRules, true))
  }

  /** gateway.rules.delete(id). */
  function DeleteRuleCall(a: Account, id: string): (r: Outcome)
    ensures r.ok <==> !Fails(a)
    ensures r.account.log == a.log + [Entry(DeleteRule(id), r.ok)]
    ensures r.account.lists == a.lists && r.account.supply == a.supply && r.account.failing == a.failing
    ensures forall q :: q in r.account.rules <==> q in a.rules && (q.id != id || !r.ok)
  {
    if Fails(a) then Outcome(false, Record(a, DeleteRule(id), false))
    else
      assert forall q :: q in RemoveRule(a.rules, id) <==> q in a.rules && q.id != id by {
        forall q ensures q in RemoveRule(a.rules, id) <==> q in a.rules && q.id != id {
          FilterMembers(a.rules, RuleIdIsNot(id), q);
        }
      }
      Outcome(true, Record(a.(rules := RemoveRule(a.rules, id)), DeleteRule(id), true))
  }

  /** gateway.rules.create: appended under the next fresh identifier. */
  function CreateRuleCall(a: Account, name: string, description: string, action: string, traffic: string, enabled: bool): (r: Outcome)
    ensures r.ok <==> !Fails(a) && a.supply != []
    ensures r.account.log == a.log + [Entry(CreateRule(name), r.ok)]
    ensures r.account.lists == a.lists && r.account.failing == a.failing
    ensures r.ok ==> r.account.rules == a.rules + [GatewayRule(a.supply[0], name, description, action, traffic, enabled)]
    ensures r.ok ==> r.account.supply == a.supply[1..]
    ensures !r.ok ==> r.account.rules == a.rules && r.account.supply == a.supply
  {
    if Fails(a) || a.supply == [] then Outcome(false, Record(a, CreateRule(name), false))
    else
      var q := GatewayRule(a.supply[0], name, description, action, traffic, enabled);
      Outcome(true, Record(a.(rules := a.rules + [q], supply := a.supply[1..]), CreateRule(name), true))
  }

  /** The SDK client bound to one account: each method performs one request
      and updates the account in place. */
  class Gateway {
    var lists: seq<GatewayList>
    var rules: seq<GatewayRule>
    var supply: seq<string>
    var failing: set<nat>
    var log: seq<Entry>

    function State(): Account
      reads this
    {
      Account(lists, rules, supply, failing, log)
    }

    constructor (a: Account)
      ensures State() == a
    {
      lists, rules, supply, failing, log := a.lists, a.rules, a.supply, a.failing, a.log;
    }

    method ListLists() returns (ok: bool, result: seq<GatewayList>)
      modifies this
      ensures Reply(ok, result, State()) == ListListsCall(old(State()))
    {
      ok := |log| !in failing;
      result := if ok then lists else [];
      log := log + [Entry(Op.ListLists, ok)];
    }

    method DeleteList(id: string) returns (ok: bool)
      modifies this
      ensures Outcome(ok, State()) == DeleteListCall(old(State()), id)
    {
      ok := |log| !in failing;
      if ok {
        lists := RemoveList(lists, id);
      }
      log := log + [Entry(Op.DeleteList(id), ok)];
    }

    method CreateList(name: string, description: string, listType: string, items: seq<string>) returns (ok: bool)
      modifies this
      ensures Outcome(ok, State()) == CreateListCall(old(State()), name, description, listType, items)
    {
      ok := |log| !in failing && supply != [];
      if ok {
        lists := lists + [GatewayList(supply[0], name, description, listType, items)];
        supply := supply[1..];
      }
      log := log + [Entry(Op.CreateList(name), ok)];
    }

    method ListRules() returns (ok: bool, result: seq<GatewayRule>)
      modifies this
      ensures Reply(ok, result, State()) == ListRulesCall(old(State()))
    {
      ok := |log| !in failing;
      result := if ok then rules else [];
      log := log + [Entry(Op.ListRules, ok)];
    }

    method DeleteRule(id: string) returns (ok: bool)
      modifies this
      ensures Outcome(ok, State()) == DeleteRuleCall(old(State()), id)
    {
      ok := |log| !in failing;
      if ok {
        rules := RemoveRule(rules, id);
      }
      log := log + [Entry(Op.DeleteRule(id), ok)];
    }

    method CreateRule(name: string, description: string, action: string, traffic: string, enabled: bool) returns (ok: bool)
      modifies this
      ensures Outcome(ok, State()) == CreateRuleCall(old(State()), name, description, action, traffic, enabled)
    {
      ok := |log| !in failing && supply != [];
      if ok {
        rules := rules + [GatewayRule(supply[0], name, description, action, traffic, enabled)];
        supply := supply[1..];
      }
      log := log + [Entry(Op.CreateRule(name), ok)];
    }
  }
}
