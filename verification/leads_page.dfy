/** The leads table page (client/src/pages/Leads.jsx): the search over the
    fetched leads and the labels shown for a missing status or source. */
module LeadsPage {
  import opened Wrappers
  import opened Js
  import opened Schema
  import Seqs
  import Strings

  /** Case-insensitive substring match of `term` in an optional column. */
  predicate ColumnMatches(column: Option<string>, term: string)
    requires column.Some?
  {
    Strings.Contains(Strings.Lower(column.value), Strings.Lower(term))
  }

  /** The search predicate as written: `lead.name.toLowerCase()` throws on a
      lead without a name, and `lead.email.toLowerCase()` on a lead without an
      email once its name has not matched. */
  function MatchAsWritten(term: string, l: Lead): (r: Eval<bool>)
    ensures r.Throws? <==> l.name.None? || (!ColumnMatches(l.name, term) && l.email.None?)
    ensures r.Returns? ==> (r.value <==> ColumnMatches(l.name, term) || ColumnMatches(l.email, term))
  {
    match l.name
    case None => Throws
    case Some(n) =>
      if Strings.Contains(Strings.Lower(n), Strings.Lower(term)) then Returns(true)
      else
        match l.email
        case None => Throws
        case Some(e) => Returns(Strings.Contains(Strings.Lower(e), Strings.Lower(term)))
  }

  /** `filteredLeads` as written: rendering throws if any lead's predicate throws. */
  function SearchAsWritten(leads: seq<Lead>, term: string): (r: Eval<seq<Lead>>)
    ensures r.Throws? <==> exists i :: 0 <= i < |leads| && MatchAsWritten(term, leads[i]).Throws?
    ensures r.Returns? ==> Seqs.IsSubsequence(r.value, leads)
  {
    Seqs.FilterEval(leads, l => MatchAsWritten(term, l))
  }

  /** A lead with a name but no email, as both lead-ads webhooks store when
      the form has no email field, breaks the page as soon as the search stops
      matching its name. */
  lemma LeadWithoutEmailBreaksSearch()
    ensures var l := Lead("1", Some("Ana"), None, Some("5551234"), Some("facebook"), Some("New"),
                          None, None, None, None, None, None, 0, None);
            SearchAsWritten([l], "").Returns? && SearchAsWritten([l], "x").Throws?
  {
    var l := Lead("1", Some("Ana"), None, Some("5551234"), Some("facebook"), Some("New"),
                  None, None, None, None, None, None, 0, None);
    Strings.ContainsEmpty("ana");
    assert Strings.Lower("Ana") == "ana";
    assert Strings.Lower("x") == "x";
    assert !Strings.Contains("ana", "x") by {
      forall i | 0 <= i <= 2 ensures !Strings.OccursAt("ana", "x", i) {
        assert "ana"[i..i + 1][0] == "ana"[i] != 'x';
      }
    }
  }

  /** The search with a missing name or email read as `''`. */
  predicate Matches(term: string, l: Lead) {
    Strings.Contains(Strings.Lower(l.name.GetOr("")), Strings.Lower(term))
    || Strings.Contains(Strings.Lower(l.email.GetOr("")), Strings.Lower(term))
  }

  function Search(leads: seq<Lead>, term: string): (r: seq<Lead>)
    ensures Seqs.IsSubsequence(r, leads)
    ensures forall l :: l in r <==> l in leads && (Strings.Contains(Strings.Lower(l.name.GetOr("")), Strings.Lower(term))
                                                   || Strings.Contains(Strings.Lower(l.email.GetOr("")), Strings.Lower(term)))
  {
    var r := Seqs.Filter(leads, l => Matches(term, l));
    assert forall l :: l in r <==> l in leads && Matches(term, l) by {
      forall l ensures l in r <==> l in leads && Matches(term, l) {
        Seqs.FilterMembership(leads, l => Matches(term, l), l);
      }
    }
    r
  }

  /** An empty search keeps every lead, in order. */
  lemma EmptySearchKeepsAll(leads: seq<Lead>)
    ensures Search(leads, "") == leads
  {
    forall i | 0 <= i < |leads| ensures Matches("", leads[i]) {
      Strings.ContainsEmpty(Strings.Lower(leads[i].name.GetOr("")));
    }
    Seqs.FilterAll(leads, l => Matches("", l));
  }

  /** Wherever the search as written answers, the corrected search gives the same list. */
  lemma SearchAgreesWhenDefined(leads: seq<Lead>, term: string)
    requires SearchAsWritten(leads, term).Returns?
    ensures SearchAsWritten(leads, term).value == Search(leads, term)
  {
    forall i | 0 <= i < |leads| ensures MatchAsWritten(term, leads[i]) == Returns(Matches(term, leads[i])) {
      assert MatchAsWritten(term, leads[i]).Returns?;
    }
    Seqs.FilterEvalAsFilter(leads, l => MatchAsWritten(term, l), l => Matches(term, l));
  }

  /** `lead.status || 'New'`. */
  function StatusLabel(l: Lead): (r: string)
    ensures r != ""
    ensures Truthy(l.status) ==> r == l.status.value
    ensures !Truthy(l.status) ==> r == "New"
  {
    Or(l.status, Some("New")).value
  }

  /** `lead.source || 'Manual'`. */
  function SourceLabel(l: Lead): (r: string)
    ensures r != ""
    ensures Truthy(l.source) ==> r == l.source.value
    ensures !Truthy(l.source) ==> r == "Manual"
  {
    Or(l.source, Some("Manual")).value
  }
}
