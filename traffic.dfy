/** The `traffic` expression of the block-ads rule (`createBlockAdsRule`): one
    `any(dns.domains[*] in $<id>)` term per managed list, joined by " or ". */
module Traffic {
  import opened Text
  import opened Provider

  const TermPrefix: string := "any(dns.domains[*] in $"
  const Or: string := " or "

  /** The term for one list; the id is interpolated as it is, without escaping. */
  function Term(id: string): string
  {
    TermPrefix + id + ")"
  }

  /** lists.map(({ id }) => ...): one term per list, in list order. */
  function Terms(lists: seq<GatewayList>): (r: seq<string>)
    ensures |r| == |lists|
  {
    seq(|lists|, k requires 0 <= k < |lists| => Term(lists[k].id))
  }

  function TrafficExpression(lists: seq<GatewayList>): string
  {
    Join(Terms(lists), Or)
  }

  /** No managed list gives an empty expression; one list gives its own term;
      more lists give the first term, " or ", and the expression of the others. */
  lemma TrafficShape(lists: seq<GatewayList>)
    ensures |lists| == 0 ==> TrafficExpression(lists) == ""
    ensures |lists| == 1 ==> TrafficExpression(lists) == Term(lists[0].id)
    ensures |lists| >= 2 ==> TrafficExpression(lists) == Term(lists[0].id) + Or + TrafficExpression(lists[1..])
  {
    if |lists| >= 2 {
      assert Terms(lists)[1..] == Terms(lists[1..]);
    }
  }

  /** Every managed list is referenced: its term occurs in the expression. */
  lemma TrafficMentions(lists: seq<GatewayList>, k: nat) returns (pos: nat)
    requires k < |lists|
    ensures OccursAt(TrafficExpression(lists), Term(lists[k].id), pos)
  {
    pos := JoinHasPiece(Terms(lists), Or, k);
  }

  /** Because ids are not escaped, one list whose id carries `) or any(...$`
      and a second id yields the same expression as two lists with those ids. */
  lemma TrafficRawIds(x: string, y: string, l: GatewayList)
    ensures TrafficExpression([l.(id := x + ")" + Or + TermPrefix + y)])
         == TrafficExpression([l.(id := x), l.(id := y)])
  {
    var one := [l.(id := x + ")" + Or + TermPrefix + y)];
    var two := [l.(id := x), l.(id := y)];
    TrafficShape(one);
    TrafficShape(two);
    TrafficShape(two[1..]);
  }
}
