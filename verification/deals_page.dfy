/** The deals pipeline page (client/src/pages/Deals.jsx): the search over
    the fetched deals, the four kanban columns the matches are grouped
    into, and the choice between the empty state and the board. */
module DealsPage {
  import opened Wrappers
  import opened Js
  import Seqs
  import Strings
  import Deals

  /** The search matches the lead's name case-insensitively; a deal without
      a lead name is searched as `''`. */
  predicate Matches(term: string, d: Deals.DealView) {
    Strings.Contains(Strings.Lower(d.leadName.GetOr("")), Strings.Lower(term))
  }

  /** `filteredDeals`. */
  function Search(deals: seq<Deals.DealView>, term: string): (r: seq<Deals.DealView>)
    ensures Seqs.IsSubsequence(r, deals)
    ensures forall d :: d in r <==> d in deals && Matches(term, d)
  {
    var r := Seqs.Filter(deals, d => Matches(term, d));
    assert forall d :: d in r <==> d in deals && Matches(term, d) by {
      forall d ensures d in r <==> d in deals && Matches(term, d) {
        Seqs.FilterMembership(deals, d => Matches(term, d), d);
      }
    }
    r
  }

  /** An empty search keeps every deal, in order. */
  lemma EmptySearchKeepsAll(deals: seq<Deals.DealView>)
    ensures Search(deals, "") == deals
  {
    forall i | 0 <= i < |deals| ensures Matches("", deals[i]) {
      Strings.ContainsEmpty(Strings.Lower(deals[i].leadName.GetOr("")));
    }
    Seqs.FilterAll(deals, d => Matches("", d));
  }

  datatype Column = Prospecting | Negotiation | Proposal | Closed

  /** Which deals each column takes, as its filter is written. */
  predicate InColumn(c: Column, d: Deals.DealView) {
    match c
    case Prospecting => d.deal.stage == Some(Str("Prospecting"))
    case Negotiation => d.deal.stage == Some(Str("Negotiation"))
    case Proposal => d.deal.stage == Some(Str("Proposal"))
    case Closed => d.deal.stage == Some(Str("Closed")) || d.deal.stage == Some(Str("Won"))
                   || d.deal.stage == Some(Str("Closed Won"))
  }

  /** `stages[c]`: the matching deals in column `c`, in list order. */
  function Bucket(filtered: seq<Deals.DealView>, c: Column): (r: seq<Deals.DealView>)
    ensures Seqs.IsSubsequence(r, filtered)
    ensures forall i :: 0 <= i < |r| ==> InColumn(c, r[i])
  {
    Seqs.Filter(filtered, d => InColumn(c, d))
  }

  /** The column a stage belongs to, if any: an independent statement of the grouping. */
  function ColumnOf(stage: Option<Scalar>): Option<Column> {
    match stage
    case Some(Str(s)) =>
      if s == "Prospecting" then Some(Prospecting)
      else if s == "Negotiation" then Some(Negotiation)
      else if s == "Proposal" then Some(Proposal)
      else if s in ["Closed", "Won", "Closed Won"] then Some(Closed)
      else None
    case _ => None
  }

  /** Each deal is in exactly the column its stage names, and in no column
      when its stage is none of the six known ones. */
  lemma InColumnIffColumnOf(c: Column, d: Deals.DealView)
    ensures InColumn(c, d) <==> ColumnOf(d.deal.stage) == Some(c)
  {
  }

  /** No deal appears in two columns. */
  lemma ColumnsDisjoint(filtered: seq<Deals.DealView>, c1: Column, c2: Column, d: Deals.DealView)
    requires c1 != c2
    ensures !(d in Bucket(filtered, c1) && d in Bucket(filtered, c2))
  {
    Seqs.FilterMembership(filtered, x => InColumn(c1, x), d);
    Seqs.FilterMembership(filtered, x => InColumn(c2, x), d);
    InColumnIffColumnOf(c1, d);
    InColumnIffColumnOf(c2, d);
  }

  predicate Shown(d: Deals.DealView) {
    ColumnOf(d.deal.stage).Some?
  }

  /** The columns together hold every deal with a known stage exactly once. */
  lemma {:induction false} ColumnsPartitionShown(filtered: seq<Deals.DealView>)
    ensures |Bucket(filtered, Prospecting)| + |Bucket(filtered, Negotiation)| + |Bucket(filtered, Proposal)|
            + |Bucket(filtered, Closed)| == Seqs.Count(filtered, Shown)
    decreases |filtered|
  {
    if |filtered| > 0 {
      ColumnsPartitionShown(filtered[1..]);
      var d := filtered[0];
      InColumnIffColumnOf(Prospecting, d);
      InColumnIffColumnOf(Negotiation, d);
      InColumnIffColumnOf(Proposal, d);
      InColumnIffColumnOf(Closed, d);
    }
  }

  /** What the page shows. */
  datatype View =
    | Loading
    | EmptyState
    | Board(prospecting: seq<Deals.DealView>, negotiation: seq<Deals.DealView>,
            proposal: seq<Deals.DealView>, closed: seq<Deals.DealView>)

  function Render(loading: bool, deals: seq<Deals.DealView>, term: string): (v: View)
    ensures v.Loading? <==> loading
    ensures v.EmptyState? <==> !loading && |deals| == 0
    ensures v.Board? ==> var f := Search(deals, term);
                         && v.prospecting == Bucket(f, Prospecting) && v.negotiation == Bucket(f, Negotiation)
                         && v.proposal == Bucket(f, Proposal) && v.closed == Bucket(f, Closed)
  {
    if loading then Loading
    else if |deals| == 0 then EmptyState
    else
      var f := Search(deals, term);
      Board(Bucket(f, Prospecting), Bucket(f, Negotiation), Bucket(f, Proposal), Bucket(f, Closed))
  }

  /** The search never brings up the empty state: a search matching nothing
      shows a board of empty columns. */
  lemma SearchNeverEmptiesPage(loading: bool, deals: seq<Deals.DealView>, t1: string, t2: string)
    ensures Render(loading, deals, t1).EmptyState? == Render(loading, deals, t2).EmptyState?
    ensures Render(loading, deals, t1).Board? == Render(loading, deals, t2).Board?
  {
  }
}
