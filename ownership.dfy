/** Which remote lists and rules belong to the reconciler: the exact-match
    description filters of `fetchAdServerLists` and `fetchBlockAdsRule`. The
    current program marks lists and the rule with two different sentinels; the
    earlier one (index.ts) uses one sentinel for both. */
module Ownership {
  import opened Seqs
  import opened Provider

  /** The sentinel descriptions a variant writes on what it creates. */
  datatype Markers = Markers(list: string, rule: string)

  const ListMarker: string := "# auto created adservers list #"
  const RuleMarker: string := "# auto created block ads rule #"
  const SharedMarker: string := "# auto created via script #"

  /** src/index.ts: a list sentinel and a different rule sentinel. */
  const Current: Markers := Markers(ListMarker, RuleMarker)

  /** index.ts: one sentinel for lists and rules alike. */
  const Legacy: Markers := Markers(SharedMarker, SharedMarker)

  /** The two sentinels of the current program differ, those of the earlier one coincide. */
  lemma MarkersDistinct()
    ensures Current.list != Current.rule
    ensures Legacy.list == Legacy.rule
  {
    assert Current.list[15] != Current.rule[15];
  }

  /** The list filter's test: a truthy id and exactly the sentinel description. */
  predicate IsOwnedList(l: GatewayList, marker: string)
  {
    l.id != "" && l.description == marker
  }

  function OwnedBy(marker: string): GatewayList -> bool
  {
    (l: GatewayList) => IsOwnedList(l, marker)
  }

  /** The lists `fetchAdServerLists` keeps, in the provider's order. */
  function OwnedLists(lists: seq<GatewayList>, marker: string): (r: seq<GatewayList>)
    ensures |r| <= |lists|
    ensures forall i :: 0 <= i < |r| ==> r[i] in lists && IsOwnedList(r[i], marker)
  {
    Filter(lists, OwnedBy(marker))
  }

  /** A list is kept exactly when it is in the account, has an id, and carries the sentinel. */
  lemma OwnedListsIff(lists: seq<GatewayList>, marker: string, l: GatewayList)
    ensures l in OwnedLists(lists, marker) <==> l in lists && l.id != "" && l.description == marker
  {
    FilterMembers(lists, OwnedBy(marker), l);
  }

  /** The filter keeps the provider's order: filtering two runs of lists one
      after the other gives the two filtered runs one after the other. */
  lemma OwnedListsAppend(a: seq<GatewayList>, b: seq<GatewayList>, marker: string)
    ensures OwnedLists(a + b, marker) == OwnedLists(a, marker) + OwnedLists(b, marker)
  {
    FilterAppend(a, b, OwnedBy(marker));
  }

  /** A list with an id and the sentinel is kept; one with another description,
      or with the sentinel and an empty id, is not. */
  lemma OwnedListsExample(mine: GatewayList, other: GatewayList, blank: GatewayList, marker: string)
    requires mine.id != "" && mine.description == marker
    requires other.description != marker
    requires blank.id == ""
    ensures OwnedLists([mine, other, blank], marker) == [mine]
  {
    assert [mine, other, blank] == [mine] + [other] + [blank];
    OwnedListsAppend([mine] + [other], [blank], marker);
    OwnedListsAppend([mine], [other], marker);
    assert OwnedLists([mine], marker) == [mine] by {
      assert [mine][1..] == [];
    }
    assert OwnedLists([other], marker) == [] by {
      assert [other][1..] == [];
    }
    assert OwnedLists([blank], marker) == [] by {
      assert [blank][1..] == [];
    }
  }

  predicate IsBlockAdsRule(r: GatewayRule, marker: string)
  {
    r.description == marker
  }

  function MarkedWith(marker: string): GatewayRule -> bool
  {
    (r: GatewayRule) => IsBlockAdsRule(r, marker)
  }

  /** The rules carrying the rule sentinel, in account order. */
  function ManagedRules(rules: seq<GatewayRule>, marker: string): (r: seq<GatewayRule>)
    ensures |r| <= |rules|
    ensures forall i :: 0 <= i < |r| ==> r[i] in rules && r[i].description == marker
    ensures forall i :: 0 <= i < |rules| && rules[i].description == marker ==> rules[i] in r
  {
    Filter(rules, MarkedWith(marker))
  }

  /** The rule `fetchBlockAdsRule` returns: the first one carrying the sentinel. */
  function FindRule(rules: seq<GatewayRule>, marker: string): (r: Option<GatewayRule>)
    ensures r.Some? ==> r.value in rules && r.value.description == marker
  {
    Find(rules, MarkedWith(marker))
  }

  /** There is no rule to delete exactly when no rule carries the sentinel. */
  lemma FindRuleNone(rules: seq<GatewayRule>, marker: string)
    ensures FindRule(rules, marker).None? <==> forall i :: 0 <= i < |rules| ==> rules[i].description != marker
  {
  }

  /** The rule found carries the sentinel and no rule before it does; a
      second rule with the sentinel further on is not the one found. */
  lemma FindRuleFirst(rules: seq<GatewayRule>, marker: string) returns (i: nat)
    requires FindRule(rules, marker).Some?
    ensures i < |rules| && rules[i] == FindRule(rules, marker).value
    ensures rules[i].description == marker
    ensures forall j :: 0 <= j < i ==> rules[j].description != marker
  {
    FindIsFirst(rules, MarkedWith(marker));
    i :| 0 <= i < |rules| && rules[i] == FindRule(rules, marker).value &&
         forall j :: 0 <= j < i ==> !MarkedWith(marker)(rules[j]);
  }
}
