/** The inbox's contact list (client/src/pages/Inbox.jsx): the fetched
    leads are narrowed to those with a phone number, then searched by name
    or phone. */
module InboxPage {
  import opened Wrappers
  import opened Js
  import opened Schema
  import Seqs
  import Strings

  /** `res.data.filter(l => l.phone)`. */
  function WithPhone(leads: seq<Lead>): (r: seq<Lead>)
    ensures Seqs.IsSubsequence(r, leads)
    ensures forall i :: 0 <= i < |r| ==> Truthy(r[i].phone)
    ensures forall l :: l in r <==> l in leads && Truthy(l.phone)
  {
    var r := Seqs.Filter(leads, (l: Lead) => Truthy(l.phone));
    assert forall l :: l in r <==> l in leads && Truthy(l.phone) by {
      forall l ensures l in r <==> l in leads && Truthy(l.phone) {
        Seqs.FilterMembership(leads, (x: Lead) => Truthy(x.phone), l);
      }
    }
    r
  }

  /** The raw phone contains the raw term. */
  predicate PhoneMatches(term: string, l: Lead) {
    Truthy(l.phone) && Strings.Contains(l.phone.value, term)
  }

  /** The search predicate as written: `lead.name.toLowerCase()` throws on
      a lead without a name; the phone is consulted only when the name does
      not match. */
  function MatchAsWritten(term: string, l: Lead): (r: Eval<bool>)
    ensures r.Throws? <==> l.name.None?
    ensures r.Returns? ==> (r.value <==> Strings.Contains(Strings.Lower(l.name.value), Strings.Lower(term)) || PhoneMatches(term, l))
  {
    match l.name
    case None => Throws
    case Some(n) =>
      if Strings.Contains(Strings.Lower(n), Strings.Lower(term)) then Returns(true) else Returns(PhoneMatches(term, l))
  }

  /** `filteredLeads` as written: the effect throws if any lead has no name. */
  function SearchAsWritten(leads: seq<Lead>, term: string): (r: Eval<seq<Lead>>)
    ensures r.Throws? <==> exists i :: 0 <= i < |leads| && leads[i].name.None?
    ensures r.Returns? ==> Seqs.IsSubsequence(r.value, leads)
  {
    Seqs.FilterEval(leads, l => MatchAsWritten(term, l))
  }

  /** A single nameless lead with a phone takes the whole list down, whatever is searched. */
  lemma NamelessLeadBreaksSearch(term: string)
    ensures var l := Lead("1", None, None, Some("5551234"), None, None, None, None, None, None, None, None, 0, None);
            SearchAsWritten(WithPhone([l]), term).Throws?
  {
    var l := Lead("1", None, None, Some("5551234"), None, None, None, None, None, None, None, None, 0, None);
    assert WithPhone([l])[0] == l;
  }

  /** The search with a missing name read as `''`, as the deals page does. */
  predicate Matches(term: string, l: Lead) {
    Strings.Contains(Strings.Lower(l.name.GetOr("")), Strings.Lower(term)) || PhoneMatches(term, l)
  }

  function Search(leads: seq<Lead>, term: string): (r: seq<Lead>)
    ensures Seqs.IsSubsequence(r, leads)
    ensures forall l :: l in r <==> l in leads && (Strings.Contains(Strings.Lower(l.name.GetOr("")), Strings.Lower(term))
                                                   || PhoneMatches(term, l))
  {
    var r := Seqs.Filter(leads, l => Matches(term, l));
    assert forall l :: l in r <==> l in leads && Matches(term, l) by {
      forall l ensures l in r <==> l in leads && Matches(term, l) {
        Seqs.FilterMembership(leads, l => Matches(term, l), l);
      }
    }
    r
  }

  /** Wherever the search as written answers, the corrected search gives the same list. */
  lemma SearchAgreesWhenDefined(leads: seq<Lead>, term: string)
    requires SearchAsWritten(leads, term).Returns?
    ensures SearchAsWritten(leads, term).value == Search(leads, term)
  {
    forall i | 0 <= i < |leads| ensures MatchAsWritten(term, leads[i]) == Returns(Matches(term, leads[i])) {
      assert MatchAsWritten(term, leads[i]).Returns?;
    }
    Seqs.FilterEvalAsFilter(leads, l => MatchAsWritten(term, l), l => Matches(term, l));
  }

  /** An empty search keeps every phone-bearing lead. */
  lemma EmptySearchKeepsAll(leads: seq<Lead>)
    ensures Search(WithPhone(leads), "") == WithPhone(leads)
  {
    var w := WithPhone(leads);
    forall i | 0 <= i < |w| ensures Matches("", w[i]) {
      Strings.ContainsEmpty(Strings.Lower(w[i].name.GetOr("")));
    }
    Seqs.FilterAll(w, l => Matches("", l));
  }

  /** What the list shows is drawn from the fetched leads, in their order. */
  lemma ShownLeadsAreFetched(leads: seq<Lead>, term: string)
    ensures Seqs.IsSubsequence(Search(WithPhone(leads), term), leads)
    ensures forall l :: l in Search(WithPhone(leads), term) ==> l in leads && Truthy(l.phone)
  {
    Seqs.SubsequenceTrans(Search(WithPhone(leads), term), WithPhone(leads), leads);
  }
}
