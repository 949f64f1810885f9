/** What the reconciliation guarantees, whichever requests the provider
    rejects: it halts at the first rejected request, its requests come in stage
    order, it leaves foreign lists and rules in place, it keeps at most one
    managed rule, and when it succeeds the managed lists are exactly the new
    lists and the rules are those the teardown left plus one new rule. */
module Properties {
  import opened Seqs
  import opened Text
  import opened Chunking
  import opened Provider
  import opened Ownership
  import opened Traffic
  import opened Runner
  import opened Workflow
  import opened Domains

  // ---------------------------------------------------------------------
  // Halting: the log ends at the first rejected request.

  lemma CallAppended(b: Account, m: Markers, c: Call)
    ensures Appended(b.log, PerformCall(b, m, c).account.log, PerformCall(b, m, c).ok)
  {
  }

  lemma CallsAppended(b: Account, m: Markers, calls: seq<Call>)
    ensures Appended(b.log, RunSpec(b, calls, CallStep(m)).account.log, RunSpec(b, calls, CallStep(m)).ok)
  {
    forall b': Account, i | 0 <= i < |calls|
      ensures Appended(b'.log, CallStep(m)(b', calls[i]).account.log, CallStep(m)(b', calls[i]).ok)
    {
      CallAppended(b', m, calls[i]);
    }
    RunAppended(b, calls, CallStep(m));
  }

  /** Every stage only appends to the log; it fails exactly when its last request failed. */
  lemma StageAppended(b: Account, m: Markers, s: Stage)
    ensures Appended(b.log, PerformStage(b, m, s).account.log, PerformStage(b, m, s).ok)
  {
    match s
    case DeleteRuleStage =>
      var r := FetchBlockAdsRuleSpec(b, m.rule);
      if r.ok && r.value.Some? {
        AppendedTrans(b.log, r.account.log, PerformStage(b, m, s).account.log, PerformStage(b, m, s).ok);
      }
    case DeleteListsStage =>
      var r := FetchAdServerListsSpec(b, m.list);
      if r.ok {
        CallsAppended(r.account, m, DeleteCalls(r.value));
        AppendedTrans(b.log, r.account.log, PerformStage(b, m, s).account.log, PerformStage(b, m, s).ok);
      }
    case CreateListsStage(items) =>
      CallsAppended(b, m, CreateCalls(Chunks(items, ListItemsLimit)));
    case CreateRuleStage =>
      var r := FetchAdServerListsSpec(b, m.list);
      if r.ok {
        AppendedTrans(b.log, r.account.log, PerformStage(b, m, s).account.log, PerformStage(b, m, s).ok);
      }
  }

  /** The whole run only appends to the log; it succeeds exactly when every
      request it made succeeded, and when it fails the rejected request is the
      last one logged: nothing runs after the first failure. */
  lemma {:induction false} ReconcileAppended(a: Account, m: Markers, domains: seq<string>)
    ensures Appended(a.log, Reconcile(a, m, domains).account.log, Reconcile(a, m, domains).ok)
  {
    var tasks := Stages(domains);
    forall b: Account, i | 0 <= i < |tasks|
      ensures Appended(b.log, TaskStep(m)(b, tasks[i]).account.log, TaskStep(m)(b, tasks[i]).ok)
    {
      StageAppended(b, m, tasks[i].stage);
    }
    RunAppended(a, tasks, TaskStep(m));
  }

  // ---------------------------------------------------------------------
  // Stage order: rule deletion, list deletions, list creations, rule creation.

  function CallPhase(c: Call): nat
  {
    match c
    case DeleteListTask(_) => 2
    case CreateListTask(_, _) => 3
  }

  function StagePhase(s: Stage): nat
  {
    match s
    case DeleteRuleStage => 1
    case DeleteListsStage => 2
    case CreateListsStage(_) => 3
    case CreateRuleStage => 4
  }

  function TaskPhase(t: Task): nat
  {
    match t
    case CallTask(c) => CallPhase(c)
    case StageTask(s) => StagePhase(s)
  }

  /** Two stretches of log, each within the phases lo..hi, make one. */
  lemma WithinTrans(x: seq<Entry>, y: seq<Entry>, z: seq<Entry>, lo: nat, hi: nat)
    requires |x| <= |y| && y[..|x|] == x && Within(y, |x|, lo, hi)
    requires |y| <= |z| && z[..|y|] == y && Within(z, |y|, lo, hi)
    ensures |x| <= |z| && z[..|x|] == x && Within(z, |x|, lo, hi)
  {
    assert z[..|x|] == z[..|y|][..|x|];
    forall i | |x| <= i < |y|
      ensures z[i] == y[i]
    {
    }
  }

  lemma CallsWithin(b: Account, m: Markers, calls: seq<Call>, p: nat)
    requires forall i :: 0 <= i < |calls| ==> CallPhase(calls[i]) == p
    ensures StepWithin(b, RunSpec(b, calls, CallStep(m)), p)
  {
    forall b': Account, i | 0 <= i < |calls|
      ensures StepWithin(b', CallStep(m)(b', calls[i]), CallPhase(calls[i]))
    {
    }
    RunWithin(b, calls, CallStep(m), CallPhase, p, p);
  }

  lemma RuleTeardownWithin(b: Account, m: Markers)
    ensures StepWithin(b, DeleteExistingBlockAdsRuleSpec(b, m), 1)
  {
  }

  lemma ListTeardownWithin(b: Account, m: Markers)
    ensures StepWithin(b, DeleteExistingAdServerListsSpec(b, m), 2)
  {
    var r := FetchAdServerListsSpec(b, m.list);
    if r.ok {
      CallsWithin(r.account, m, DeleteCalls(r.value), 2);
      WithinTrans(b.log, r.account.log, DeleteExistingAdServerListsSpec(b, m).account.log, 2, 2);
    }
  }

  lemma RuleCreationWithin(b: Account, m: Markers)
    ensures StepWithin(b, CreateBlockAdsRuleSpec(b, m), 4)
  {
  }

  /** Each stage makes, besides reads, only the requests of its own phase. */
  lemma StageWithin(b: Account, m: Markers, s: Stage)
    ensures StepWithin(b, PerformStage(b, m, s), StagePhase(s))
  {
    match s
    case DeleteRuleStage => RuleTeardownWithin(b, m);
    case DeleteListsStage => ListTeardownWithin(b, m);
    case CreateListsStage(items) => CallsWithin(b, m, CreateCalls(Chunks(items, ListItemsLimit)), 3);
    case CreateRuleStage => RuleCreationWithin(b, m);
  }

  /** The requests that change the account come in stage order: the rule
      deletion first, then list deletions, then list creations, then the rule
      creation. */
  lemma ReconcileOrdered(a: Account, m: Markers, domains: seq<string>)
    ensures |a.log| <= |Reconcile(a, m, domains).account.log|
    ensures Reconcile(a, m, domains).account.log[..|a.log|] == a.log
    ensures Ordered(Reconcile(a, m, domains).account.log, |a.log|)
  {
    var tasks := Stages(domains);
    forall b: Account, i | 0 <= i < |tasks|
      ensures StepWithin(b, TaskStep(m)(b, tasks[i]), TaskPhase(tasks[i]))
    {
      StageWithin(b, m, tasks[i].stage);
    }
    RunWithin(a, tasks, TaskStep(m), TaskPhase, 1, 4);
  }

  // ---------------------------------------------------------------------
  // Foreign resources are left in place, and one managed rule at most.

  /** The run seen stage by stage, whatever its outcome: each stage starts
      from the account the one before it left, and the run ends with the
      outcome of the first stage that fails, or of the last. */
  lemma ReconcileSteps(a: Account, m: Markers, domains: seq<string>) returns (o1: Outcome, o2: Outcome, o3: Outcome, o4: Outcome)
    ensures o1 == PerformStage(a, m, DeleteRuleStage)
    ensures o2 == PerformStage(o1.account, m, DeleteListsStage)
    ensures o3 == PerformStage(o2.account, m, CreateListsStage(Take(domains, AdServersLimit)))
    ensures o4 == PerformStage(o3.account, m, CreateRuleStage)
    ensures Reconcile(a, m, domains) == if !o1.ok then o1 else if !o2.ok then o2 else if !o3.ok then o3 else o4
  {
    var tasks := Stages(domains);
    var f := TaskStep(m);
    o1 := f(a, tasks[0]);
    o2 := f(o1.account, tasks[1]);
    o3 := f(o2.account, tasks[2]);
    o4 := f(o3.account, tasks[3]);
    RunCons(a, tasks, f);
    if o1.ok {
      assert tasks[1..][0] == tasks[1];
      RunCons(o1.account, tasks[1..], f);
      if o2.ok {
        assert tasks[1..][1..] == tasks[2..] && tasks[2..][0] == tasks[2];
        RunCons(o2.account, tasks[2..], f);
        if o3.ok {
          assert tasks[2..][1..] == tasks[3..] && tasks[3..][0] == tasks[3];
          RunCons(o3.account, tasks[3..], f);
          assert tasks[3..][1..] == [];
        }
      }
    }
  }

  /** `l` is in the account and no list carrying the list sentinel shares
      its id. Such a list is foreign: it cannot itself carry the sentinel with
      a non-empty id. */
  predicate KeepsList(b: Account, l: GatewayList, marker: string)
  {
    l in b.lists && forall o :: o in b.lists && IsOwnedList(o, marker) ==> o.id != l.id
  }

  lemma CallKeepsList(b: Account, m: Markers, c: Call, l: GatewayList)
    requires l in b.lists
    requires c.DeleteListTask? ==> c.id != l.id
    ensures l in PerformCall(b, m, c).account.lists
  {
  }

  /** A run of list requests keeps every list whose id none of its deletions names. */
  lemma CallsKeepList(b: Account, m: Markers, calls: seq<Call>, l: GatewayList)
    requires l in b.lists
    requires forall i :: 0 <= i < |calls| && calls[i].DeleteListTask? ==> calls[i].id != l.id
    ensures l in RunSpec(b, calls, CallStep(m)).account.lists
  {
    var P := (b': Account) => l in b'.lists;
    forall b': Account, i | 0 <= i < |calls| && P(b')
      ensures P(CallStep(m)(b', calls[i]).account)
    {
      CallKeepsList(b', m, calls[i], l);
    }
    RunPreserves(b, calls, CallStep(m), P);
  }

  /** The list teardown deletes only ids of lists that carry the sentinel,
      so it keeps a foreign list, whatever its outcome. */
  lemma ListTeardownKeepsList(b: Account, m: Markers, l: GatewayList)
    requires KeepsList(b, l, m.list)
    ensures l in DeleteExistingAdServerListsSpec(b, m).account.lists
  {
    var r := FetchAdServerListsSpec(b, m.list);
    if r.ok {
      var calls := DeleteCalls(r.value);
      forall i | 0 <= i < |calls|
        ensures calls[i].id != l.id
      {
        OwnedListsIff(b.lists, m.list, r.value[i]);
      }
      CallsKeepList(r.account, m, calls, l);
    }
  }

  /** The list creation only appends, so it keeps every list. */
  lemma ListCreationKeepsList(b: Account, m: Markers, items: seq<string>, l: GatewayList)
    requires l in b.lists
    ensures l in CreateAdServerListsSpec(b, m, items).account.lists
  {
    CallsKeepList(b, m, CreateCalls(Chunks(items, ListItemsLimit)), l);
  }

  /** A foreign list is still in the account after the run, whether the run
      succeeded or stopped at a failure: the rule stages leave the lists as
      they are, the teardown spares it, and the creation only appends. */
  lemma ReconcileKeepsForeignList(a: Account, m: Markers, domains: seq<string>, l: GatewayList)
    requires KeepsList(a, l, m.list)
    ensures l in Reconcile(a, m, domains).account.lists
  {
    var o1, o2, o3, o4 := ReconcileSteps(a, m, domains);
    RuleTeardownEffect(a, m);
    ListTeardownKeepsList(o1.account, m, l);
    ListCreationKeepsList(o2.account, m, Take(domains, AdServersLimit), l);
    RuleCreationEffect(o3.account, m);
  }

  /** `q` is in the account and no rule carrying the rule sentinel shares its id. */
  predicate KeepsRule(b: Account, q: GatewayRule, marker: string)
  {
    q in b.rules && forall r :: r in b.rules && IsBlockAdsRule(r, marker) ==> r.id != q.id
  }

  /** The rule teardown deletes only the id of a rule that carries the
      sentinel, so it keeps a foreign rule, whatever its outcome. */
  lemma RuleTeardownKeepsRule(b: Account, m: Markers, q: GatewayRule)
    requires KeepsRule(b, q, m.rule)
    ensures q in DeleteExistingBlockAdsRuleSpec(b, m).account.rules
  {
    var r := FetchBlockAdsRuleSpec(b, m.rule);
    if r.ok && r.value.Some? {
      var i := FindRuleFirst(b.rules, m.rule);
      assert b.rules[i] in b.rules;
    }
  }

  /** A foreign rule is still in the account after the run, whatever its
      outcome: the teardown spares it, the list stages leave the rules as they
      are, and the rule creation only appends. */
  lemma ReconcileKeepsForeignRule(a: Account, m: Markers, domains: seq<string>, q: GatewayRule)
    requires KeepsRule(a, q, m.rule)
    ensures q in Reconcile(a, m, domains).account.rules
  {
    var o1, o2, o3, o4 := ReconcileSteps(a, m, domains);
    RuleTeardownKeepsRule(a, m, q);
    ListTeardownEffect(o1.account, m);
    ListCreationEffect(o2.account, m, Take(domains, AdServersLimit));
    RuleCreationEffect(o3.account, m);
  }

  /** With at most one rule carrying the sentinel, the teardown leaves none:
      it deletes the id of the one it finds. */
  lemma TeardownLeavesNoManagedRule(rules: seq<GatewayRule>, marker: string)
    requires |ManagedRules(rules, marker)| <= 1
    ensures ManagedRules(RulesAfterTeardown(rules, marker), marker) == []
  {
    var after := RulesAfterTeardown(rules, marker);
    var left := ManagedRules(after, marker);
    if left != [] {
      var x := left[0];
      assert x in after && x.description == marker;
      match FindRule(rules, marker)
      case None =>
        FindRuleNone(rules, marker);
      case Some(q) =>
        RuleTeardownOnlyFirst(rules, marker, x);
    }
  }

  /** The rule teardown keeps at most one managed rule, and on success leaves none. */
  lemma RuleTeardownManaged(b: Account, m: Markers)
    requires |ManagedRules(b.rules, m.rule)| <= 1
    ensures var o := PerformStage(b, m, DeleteRuleStage);
            |ManagedRules(o.account.rules, m.rule)| <= 1 &&
            (o.ok ==> ManagedRules(o.account.rules, m.rule) == [])
  {
    RuleTeardownEffect(b, m);
    TeardownLeavesNoManagedRule(b.rules, m.rule);
  }

  /** The list stages leave the rules as they are. */
  lemma ListStageKeepsRules(b: Account, m: Markers, s: Stage)
    requires s.DeleteListsStage? || s.CreateListsStage?
    ensures PerformStage(b, m, s).account.rules == b.rules
  {
    if s.DeleteListsStage? {
      ListTeardownEffect(b, m);
    } else {
      ListCreationEffect(b, m, s.items);
    }
  }

  /** With no managed rule before it, the rule creation leaves at most one:
      it appends a single rule, or nothing when it fails. */
  lemma RuleCreationAddsOne(b: Account, m: Markers)
    requires ManagedRules(b.rules, m.rule) == []
    ensures |ManagedRules(PerformStage(b, m, CreateRuleStage).account.rules, m.rule)| <= 1
  {
    var o := CreateBlockAdsRuleSpec(b, m);
    RuleCreationEffect(b, m);
    if o.ok {
      var q := o.account.rules[|b.rules|];
      assert o.account.rules == b.rules + [q];
      FilterAppend(b.rules, [q], MarkedWith(m.rule));
    }
  }

  /** At most one managed rule at a time: a run from an account with at most
      one rule carrying the rule sentinel leaves at most one, whatever its
      outcome. The new rule is created only after the teardown succeeded. */
  lemma ReconcileKeepsOneManagedRule(a: Account, m: Markers, domains: seq<string>)
    requires |ManagedRules(a.rules, m.rule)| <= 1
    ensures |ManagedRules(Reconcile(a, m, domains).account.rules, m.rule)| <= 1
  {
    var o1, o2, o3, o4 := ReconcileSteps(a, m, domains);
    RuleTeardownManaged(a, m);
    if o1.ok {
      ListStageKeepsRules(o1.account, m, DeleteListsStage);
      ListStageKeepsRules(o2.account, m, CreateListsStage(Take(domains, AdServersLimit)));
      RuleCreationAddsOne(o3.account, m);
    }
  }

  // ---------------------------------------------------------------------
  // What each stage does to the account.

  /** The rules left by the rule teardown: all but those with the id of the
      first rule carrying the sentinel. */
  function RulesAfterTeardown(rules: seq<GatewayRule>, marker: string): seq<GatewayRule>
  {
    match FindRule(rules, marker)
    case None => rules
    case Some(q) => RemoveRule(rules, q.id)
  }

  /** With no rule carrying the sentinel, the teardown leaves the rules as they are. */
  lemma RuleTeardownNoMatch(rules: seq<GatewayRule>, marker: string)
    requires forall i :: 0 <= i < |rules| ==> rules[i].description != marker
    ensures RulesAfterTeardown(rules, marker) == rules
  {
    FindRuleNone(rules, marker);
  }

  /** Only the first rule carrying the sentinel is removed: every rule with
      another id stays, a later rule with the sentinel included. */
  lemma RuleTeardownOnlyFirst(rules: seq<GatewayRule>, marker: string, r: GatewayRule)
    requires FindRule(rules, marker).Some?
    ensures r in RulesAfterTeardown(rules, marker) <==> r in rules && r.id != FindRule(rules, marker).value.id
  {
    FilterMembers(rules, RuleIdIsNot(FindRule(rules, marker).value.id), r);
  }

  /** deleteExistingBlockAdsRule changes only the rules, and on success leaves
      exactly `RulesAfterTeardown`. */
  lemma RuleTeardownEffect(b: Account, m: Markers)
    ensures var o := DeleteExistingBlockAdsRuleSpec(b, m);
            o.account.lists == b.lists && o.account.supply == b.supply &&
            o.account.rules == (if o.ok then RulesAfterTeardown(b.rules, m.rule) else b.rules)
  {
  }

  /** The deletions of a sequence of lists' ids remove exactly the lists
      with one of those ids, when none of them fails. */
  lemma {:induction false} DeleteCallsEffect(b: Account, m: Markers, ls: seq<GatewayList>)
    ensures var o := RunSpec(b, DeleteCalls(ls), CallStep(m));
            o.account.rules == b.rules && o.account.supply == b.supply &&
            (o.ok ==> forall x :: x in o.account.lists <==> x in b.lists && forall k :: 0 <= k < |ls| ==> ls[k].id != x.id)
    decreases |ls|
  {
    if ls != [] {
      var calls := DeleteCalls(ls);
      assert calls[0] == DeleteListTask(ls[0].id);
      assert calls[1..] == DeleteCalls(ls[1..]);
      var o1 := DeleteListCall(b, ls[0].id);
      if o1.ok {
        DeleteCallsEffect(o1.account, m, ls[1..]);
        var o := RunSpec(b, calls, CallStep(m));
        assert o == RunSpec(o1.account, DeleteCalls(ls[1..]), CallStep(m));
        if o.ok {
          forall x
            ensures x in o.account.lists <==> x in b.lists && forall k :: 0 <= k < |ls| ==> ls[k].id != x.id
          {
            if x in b.lists && x.id != ls[0].id && forall k :: 0 <= k < |ls| - 1 ==> ls[1..][k].id != x.id {
              forall k | 0 <= k < |ls| ensures ls[k].id != x.id {
                if k > 0 { assert ls[1..][k - 1] == ls[k]; }
              }
            }
          }
        }
      }
    }
  }

  lemma IdsAvoided(ls: seq<GatewayList>, x: GatewayList)
    ensures (forall k :: 0 <= k < |ls| ==> ls[k].id != x.id) <==> (forall y :: y in ls ==> y.id != x.id)
  {
  }

  /** Removing every list that shares an id with a list carrying the
      sentinel leaves none carrying it. */
  lemma NoneOwnedLeft(before: seq<GatewayList>, after: seq<GatewayList>, marker: string)
    requires forall x :: x in after <==> x in before && forall y :: y in OwnedLists(before, marker) ==> y.id != x.id
    ensures OwnedLists(after, marker) == []
  {
    if OwnedLists(after, marker) != [] {
      var e := OwnedLists(after, marker)[0];
      OwnedListsIff(after, marker, e);
      OwnedListsIff(before, marker, e);
      assert false;
    }
  }

  /** deleteExistingAdServerLists changes only the lists; on success it has
      removed every list sharing an id with a list carrying the sentinel, so
      none carrying the sentinel is left, and kept every other list. */
  lemma ListTeardownEffect(b: Account, m: Markers)
    ensures var o := DeleteExistingAdServerListsSpec(b, m);
            o.account.rules == b.rules && o.account.supply == b.supply &&
            (o.ok ==> OwnedLists(o.account.lists, m.list) == []) &&
            (o.ok ==> forall x :: x in o.account.lists <==>
                        x in b.lists && forall y :: y in OwnedLists(b.lists, m.list) ==> y.id != x.id)
  {
    var r := FetchAdServerListsSpec(b, m.list);
    var o := DeleteExistingAdServerListsSpec(b, m);
    if r.ok {
      var owned := r.value;
      assert owned == OwnedLists(b.lists, m.list);
      DeleteCallsEffect(r.account, m, owned);
      if o.ok {
        assert forall x :: x in o.account.lists <==> x in b.lists && forall y :: y in owned ==> y.id != x.id by {
          forall x
            ensures x in o.account.lists <==> x in b.lists && forall y :: y in owned ==> y.id != x.id
          {
            IdsAvoided(owned, x);
          }
        }
        NoneOwnedLeft(b.lists, o.account.lists, m.list);
      }
    }
  }

  /** The lists made from the chunks: list k gets the k-th fresh id, the name
      `Ad servers k+1`, the sentinel, the type DOMAIN and the k-th chunk. */
  function NewLists(supply: seq<string>, chunks: seq<seq<string>>, marker: string): seq<GatewayList>
    requires |chunks| <= |supply|
  {
    seq(|chunks|, k requires 0 <= k < |chunks| => GatewayList(supply[k], ListName(k), marker, "DOMAIN", chunks[k]))
  }

  /** The lists a sequence of creation calls makes, each under the next fresh id. */
  function Created(supply: seq<string>, calls: seq<Call>, marker: string): seq<GatewayList>
    requires |calls| <= |supply|
    requires forall i :: 0 <= i < |calls| ==> calls[i].CreateListTask?
  {
    seq(|calls|, k requires 0 <= k < |calls| => GatewayList(supply[k], calls[k].name, marker, "DOMAIN", calls[k].items))
  }

  lemma CreatedCons(supply: seq<string>, calls: seq<Call>, marker: string)
    requires 1 <= |calls| <= |supply|
    requires forall i :: 0 <= i < |calls| ==> calls[i].CreateListTask?
    ensures Created(supply, calls, marker) ==
              [GatewayList(supply[0], calls[0].name, marker, "DOMAIN", calls[0].items)] + Created(supply[1..], calls[1..], marker)
  {
    var r := [GatewayList(supply[0], calls[0].name, marker, "DOMAIN", calls[0].items)] + Created(supply[1..], calls[1..], marker);
    forall k | 0 <= k < |calls|
      ensures Created(supply, calls, marker)[k] == r[k]
    {
      if k > 0 {
        assert calls[1..][k - 1] == calls[k];
      }
    }
  }

  /** A sequence of list creations appends one list per call, in call order,
      each under the next fresh id, when none of them fails. */
  lemma {:induction false} CreateCallsEffect(b: Account, m: Markers, calls: seq<Call>)
    requires forall i :: 0 <= i < |calls| ==> calls[i].CreateListTask?
    ensures var o := RunSpec(b, calls, CallStep(m));
            o.account.rules == b.rules &&
            (o.ok ==> |calls| <= |b.supply| && o.account.supply == b.supply[|calls|..] &&
                      o.account.lists == b.lists + Created(b.supply, calls, m.list))
    decreases |calls|
  {
    if calls != [] {
      var c := calls[0];
      var o1 := CreateListCall(b, c.name, m.list, "DOMAIN", c.items);
      RunCons(b, calls, CallStep(m));
      if o1.ok {
        var rest := calls[1..];
        CreateCallsEffect(o1.account, m, rest);
        var o := RunSpec(b, calls, CallStep(m));
        if o.ok {
          assert b.supply[1..][|rest|..] == b.supply[|calls|..];
          CreatedCons(b.supply, calls, m.list);
        }
      }
    }
  }

  /** createAdServerLists changes only the lists and the fresh ids; on
      success it has appended `NewLists` and used up one id per list. */
  lemma ListCreationEffect(b: Account, m: Markers, items: seq<string>)
    ensures var o := CreateAdServerListsSpec(b, m, items);
            var chunks := Chunks(items, ListItemsLimit);
            o.account.rules == b.rules &&
            (o.ok ==> |chunks| <= |b.supply| && o.account.supply == b.supply[|chunks|..] &&
                      o.account.lists == b.lists + NewLists(b.supply, chunks, m.list))
  {
    var chunks := Chunks(items, ListItemsLimit);
    var calls := CreateCalls(chunks);
    CreateCallsEffect(b, m, calls);
    var o := CreateAdServerListsSpec(b, m, items);
    if o.ok {
      assert Created(b.supply, calls, m.list) == NewLists(b.supply, chunks, m.list) by {
        forall k | 0 <= k < |chunks|
          ensures Created(b.supply, calls, m.list)[k] == NewLists(b.supply, chunks, m.list)[k]
        {
          assert calls[k] == CreateListTask(ListName(k), chunks[k]);
        }
      }
    }
  }

  /** createBlockAdsRule changes only the rules and the fresh ids; on success
      it has appended one rule whose traffic names the lists that carry the
      sentinel at that moment. */
  lemma RuleCreationEffect(b: Account, m: Markers)
    ensures var o := CreateBlockAdsRuleSpec(b, m);
            o.account.lists == b.lists &&
            (o.ok ==> b.supply != [] && o.account.supply == b.supply[1..] &&
                      o.account.rules == b.rules + [GatewayRule(b.supply[0], "Block ads", m.rule, "block",
                                                                TrafficExpression(OwnedLists(b.lists, m.list)), true)]) &&
            (!o.ok ==> o.account.rules == b.rules && o.account.supply == b.supply)
  {
  }

  // ---------------------------------------------------------------------
  // A successful run.

  /** The new lists all carry the sentinel when the fresh ids are non-empty,
      so the list filter keeps every one of them. */
  lemma NewListsOwned(supply: seq<string>, chunks: seq<seq<string>>, marker: string)
    requires |chunks| <= |supply|
    requires forall k :: 0 <= k < |supply| ==> supply[k] != ""
    ensures OwnedLists(NewLists(supply, chunks, marker), marker) == NewLists(supply, chunks, marker)
  {
    FilterAll(NewLists(supply, chunks, marker), OwnedBy(marker));
  }

  /** A successful run passes through the four stages, each succeeding on the
      account the one before it left; the last stage's outcome is the run's. */
  lemma ReconcileStages(a: Account, m: Markers, domains: seq<string>) returns (b1: Account, b2: Account, b3: Account)
    ensures Reconcile(a, m, domains).ok ==>
              PerformStage(a, m, DeleteRuleStage) == Outcome(true, b1) &&
              PerformStage(b1, m, DeleteListsStage) == Outcome(true, b2) &&
              PerformStage(b2, m, CreateListsStage(Take(domains, AdServersLimit))) == Outcome(true, b3) &&
              PerformStage(b3, m, CreateRuleStage) == Reconcile(a, m, domains)
  {
    var tasks := Stages(domains);
    var f := TaskStep(m);
    var o := Reconcile(a, m, domains);
    RunCons(a, tasks, f);
    var o1 := f(a, tasks[0]);
    b1 := o1.account;
    b2, b3 := b1, b1;
    if o.ok {
      assert o1.ok;
      assert tasks[1..][0] == tasks[1];
      RunCons(b1, tasks[1..], f);
      var o2 := f(b1, tasks[1]);
      assert o2.ok;
      b2 := o2.account;
      assert tasks[1..][1..] == tasks[2..] && tasks[2..][0] == tasks[2];
      RunCons(b2, tasks[2..], f);
      var o3 := f(b2, tasks[2]);
      assert o3.ok;
      b3 := o3.account;
      assert tasks[2..][1..] == tasks[3..] && tasks[3..][0] == tasks[3];
      RunCons(b3, tasks[3..], f);
      assert tasks[3..][1..] == [];
      assert o == f(b3, tasks[3]);
    }
  }

  lemma AfterRuleTeardown(a: Account, m: Markers, b1: Account)
    requires PerformStage(a, m, DeleteRuleStage) == Outcome(true, b1)
    ensures b1.lists == a.lists && b1.supply == a.supply && b1.rules == RulesAfterTeardown(a.rules, m.rule)
  {
    RuleTeardownEffect(a, m);
  }

  lemma AfterListTeardown(b1: Account, m: Markers, b2: Account)
    requires PerformStage(b1, m, DeleteListsStage) == Outcome(true, b2)
    ensures b2.rules == b1.rules && b2.supply == b1.supply && OwnedLists(b2.lists, m.list) == []
  {
    ListTeardownEffect(b1, m);
  }

  lemma AfterListCreation(b2: Account, m: Markers, items: seq<string>, b3: Account)
    requires PerformStage(b2, m, CreateListsStage(items)) == Outcome(true, b3)
    ensures var chunks := Chunks(items, ListItemsLimit);
            b3.rules == b2.rules && |chunks| <= |b2.supply| && b3.supply == b2.supply[|chunks|..] &&
            b3.lists == b2.lists + NewLists(b2.supply, chunks, m.list)
  {
    ListCreationEffect(b2, m, items);
  }

  lemma AfterRuleCreation(b3: Account, m: Markers, o: Outcome)
    requires PerformStage(b3, m, CreateRuleStage) == o && o.ok
    ensures o.account.lists == b3.lists && b3.supply != [] &&
            o.account.rules == b3.rules + [GatewayRule(b3.supply[0], "Block ads", m.rule, "block",
                                                       TrafficExpression(OwnedLists(b3.lists, m.list)), true)]
  {
    RuleCreationEffect(b3, m);
  }

  /** Four stages that succeeded one after the other leave the new lists
      managed and one new rule naming them. */
  lemma StagesSucceeded(a: Account, m: Markers, chunks: seq<seq<string>>, b1: Account, b2: Account, b3: Account, o: Outcome)
    requires forall k :: 0 <= k < |a.supply| ==> a.supply[k] != ""
    requires b1.lists == a.lists && b1.supply == a.supply && b1.rules == RulesAfterTeardown(a.rules, m.rule)
    requires b2.rules == b1.rules && b2.supply == b1.supply && OwnedLists(b2.lists, m.list) == []
    requires b3.rules == b2.rules && |chunks| <= |b2.supply| && b3.supply == b2.supply[|chunks|..] &&
             b3.lists == b2.lists + NewLists(b2.supply, chunks, m.list)
    requires o.account.lists == b3.lists && b3.supply != [] &&
             o.account.rules == b3.rules + [GatewayRule(b3.supply[0], "Block ads", m.rule, "block",
                                                        TrafficExpression(OwnedLists(b3.lists, m.list)), true)]
    ensures |chunks| < |a.supply| &&
            OwnedLists(o.account.lists, m.list) == NewLists(a.supply, chunks, m.list) &&
            o.account.rules == RulesAfterTeardown(a.rules, m.rule) +
              [GatewayRule(a.supply[|chunks|], "Block ads", m.rule, "block",
                           TrafficExpression(NewLists(a.supply, chunks, m.list)), true)]
  {
    var created := NewLists(a.supply, chunks, m.list);
    NewListsOwned(a.supply, chunks, m.list);
    OwnedListsAppend(b2.lists, created, m.list);
    assert OwnedLists(b3.lists, m.list) == created;
    assert b3.supply[0] == a.supply[|chunks|];
  }

  /** After a successful run the lists carrying the sentinel are exactly the
      new lists, in chunk order, and the rules are those the teardown left
      plus one new `Block ads` rule that blocks the domains of exactly those
      lists. Provider ids are assumed non-empty. */
  lemma ReconcileSuccess(a: Account, m: Markers, domains: seq<string>)
    requires forall k :: 0 <= k < |a.supply| ==> a.supply[k] != ""
    ensures var o := Reconcile(a, m, domains);
            var chunks := Chunks(Take(domains, AdServersLimit), ListItemsLimit);
            o.ok ==> |chunks| < |a.supply| &&
                     OwnedLists(o.account.lists, m.list) == NewLists(a.supply, chunks, m.list) &&
                     o.account.rules == RulesAfterTeardown(a.rules, m.rule) +
                       [GatewayRule(a.supply[|chunks|], "Block ads", m.rule, "block",
                                    TrafficExpression(NewLists(a.supply, chunks, m.list)), true)]
  {
    var b1, b2, b3 := ReconcileStages(a, m, domains);
    var o := Reconcile(a, m, domains);
    if o.ok {
      var items := Take(domains, AdServersLimit);
      AfterRuleTeardown(a, m, b1);
      AfterListTeardown(b1, m, b2);
      AfterListCreation(b2, m, items, b3);
      AfterRuleCreation(b3, m, o);
      StagesSucceeded(a, m, Chunks(items, ListItemsLimit), b1, b2, b3, o);
    }
  }

  /** At most 100 lists are created, each with at most 1000 domains; a feed of
      100000 domains or more fills exactly 100 lists of exactly 1000. */
  lemma ListCap(domains: seq<string>)
    ensures var chunks := Chunks(Take(domains, AdServersLimit), ListItemsLimit);
            |chunks| <= 100 &&
            (forall k :: 0 <= k < |chunks| ==> |chunks[k]| <= 1000) &&
            (|domains| >= AdServersLimit ==> |chunks| == 100 && forall k :: 0 <= k < |chunks| ==> |chunks[k]| == 1000)
  {
    var items := Take(domains, AdServersLimit);
    var chunks := Chunks(items, ListItemsLimit);
    ChunksCount(items, ListItemsLimit);
    if |domains| >= AdServersLimit {
      assert |chunks| == 100;
      forall k | 0 <= k < |chunks|
        ensures |chunks[k]| == 1000
      {
        ChunksAt(items, ListItemsLimit, k);
      }
    }
  }

  /** Different chunks give differently named lists. */
  lemma ListNamesDistinct(j: nat, k: nat)
    requires j != k
    ensures ListName(j) != ListName(k)
  {
    DecimalInjective(j + 1, k + 1);
    var p := "Ad servers ";
    assert ListName(j)[|p|..] == DecimalString(j + 1);
    assert ListName(k)[|p|..] == DecimalString(k + 1);
  }

  /** The new lists hold the first 100000 domains: their items, concatenated
      in list order, are exactly those domains. */
  lemma NewListsHoldDomains(supply: seq<string>, domains: seq<string>, marker: string)
    requires |Chunks(Take(domains, AdServersLimit), ListItemsLimit)| <= |supply|
    ensures var chunks := Chunks(Take(domains, AdServersLimit), ListItemsLimit);
            var ls := NewLists(supply, chunks, marker);
            Flatten(seq(|ls|, k requires 0 <= k < |ls| => ls[k].items)) == Take(domains, AdServersLimit)
  {
    var items := Take(domains, AdServersLimit);
    var chunks := Chunks(items, ListItemsLimit);
    var ls := NewLists(supply, chunks, marker);
    assert seq(|ls|, k requires 0 <= k < |ls| => ls[k].items) == chunks;
    ChunksFlatten(items, ListItemsLimit);
  }

  /** In the current program every item of every new list is a valid domain
      taken from the merged feeds. */
  lemma CurrentListItemsAreDomains(adguardBody: string, blacklistBody: string, k: nat, x: string)
    requires k < |Chunks(Take(AdServers(adguardBody, blacklistBody), AdServersLimit), ListItemsLimit)|
    requires x in Chunks(Take(AdServers(adguardBody, blacklistBody), AdServersLimit), ListItemsLimit)[k]
    ensures x in AdServers(adguardBody, blacklistBody) && IsDomain(x)
  {
    var all := AdServers(adguardBody, blacklistBody);
    var items := Take(all, AdServersLimit);
    ChunksAt(items, ListItemsLimit, k);
    var i :| 0 <= i < |Chunks(items, ListItemsLimit)[k]| && Chunks(items, ListItemsLimit)[k][i] == x;
    assert x == items[k * ListItemsLimit + i];
    assert x == all[k * ListItemsLimit + i];
    AdServersAreDomains(adguardBody, blacklistBody, x);
  }

  // ---------------------------------------------------------------------
  // A run the provider never rejects succeeds.

  lemma DeleteCallsSucceed(b: Account, m: Markers, ls: seq<GatewayList>)
    requires b.failing == {}
    ensures RunSpec(b, DeleteCalls(ls), CallStep(m)).ok
    ensures RunSpec(b, DeleteCalls(ls), CallStep(m)).account.failing == {}
  {
    var calls := DeleteCalls(ls);
    var P := (b': Account) => b'.failing == {};
    forall b': Account, i | 0 <= i < |calls| && P(b')
      ensures CallStep(m)(b', calls[i]).ok && P(CallStep(m)(b', calls[i]).account)
    {
    }
    RunSucceeds(b, calls, CallStep(m), P);
    RunPreserves(b, calls, CallStep(m), P);
  }

  lemma {:induction false} CreateCallsSucceed(b: Account, m: Markers, calls: seq<Call>)
    requires b.failing == {} && |calls| <= |b.supply|
    requires forall i :: 0 <= i < |calls| ==> calls[i].CreateListTask?
    ensures RunSpec(b, calls, CallStep(m)).ok
    ensures RunSpec(b, calls, CallStep(m)).account.failing == {}
    decreases |calls|
  {
    if calls != [] {
      var o1 := CallStep(m)(b, calls[0]);
      assert o1.ok && o1.account.supply == b.supply[1..];
      CreateCallsSucceed(o1.account, m, calls[1..]);
    }
  }

  /** A stage on an account that rejects nothing succeeds when it has an id
      for each list or rule it creates, and uses up exactly those ids. */
  lemma StageSucceeds(b: Account, m: Markers, s: Stage)
    requires b.failing == {}
    requires s.CreateListsStage? ==> |Chunks(s.items, ListItemsLimit)| <= |b.supply|
    requires s.CreateRuleStage? ==> b.supply != []
    ensures var o := PerformStage(b, m, s);
            o.ok && o.account.failing == {} &&
            o.account.supply == match s
              case CreateListsStage(items) => b.supply[|Chunks(items, ListItemsLimit)|..]
              case CreateRuleStage => b.supply[1..]
              case _ => b.supply
  {
    match s
    case DeleteRuleStage =>
    case DeleteListsStage =>
      var r := FetchAdServerListsSpec(b, m.list);
      DeleteCallsSucceed(r.account, m, r.value);
      ListTeardownEffect(b, m);
    case CreateListsStage(items) =>
      CreateCallsSucceed(b, m, CreateCalls(Chunks(items, ListItemsLimit)));
      ListCreationEffect(b, m, items);
    case CreateRuleStage =>
  }

  /** With no request rejected and one fresh id for each new list and for the
      rule, every stage succeeds and so does the run. */
  lemma ReconcileSucceeds(a: Account, m: Markers, domains: seq<string>)
    requires a.failing == {}
    requires |Chunks(Take(domains, AdServersLimit), ListItemsLimit)| < |a.supply|
    ensures Reconcile(a, m, domains).ok
  {
    var tasks := Stages(domains);
    var f := TaskStep(m);
    var items := Take(domains, AdServersLimit);
    var o1 := f(a, tasks[0]);
    StageSucceeds(a, m, DeleteRuleStage);
    RunCons(a, tasks, f);
    var o2 := f(o1.account, tasks[1..][0]);
    StageSucceeds(o1.account, m, DeleteListsStage);
    RunCons(o1.account, tasks[1..], f);
    var o3 := f(o2.account, tasks[2..][0]);
    StageSucceeds(o2.account, m, CreateListsStage(items));
    assert tasks[1..][1..] == tasks[2..];
    RunCons(o2.account, tasks[2..], f);
    StageSucceeds(o3.account, m, CreateRuleStage);
    assert tasks[2..][1..] == tasks[3..];
    RunCons(o3.account, tasks[3..], f);
    assert tasks[3..][1..] == [];
  }
}
