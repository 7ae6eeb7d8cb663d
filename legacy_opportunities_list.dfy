/**
 * The older copy of the opportunities list page kept in the `personal-crm`
 * directory. Its filter is written out again here, as in the source, and
 * proved to agree with the current page's; its badge colours differ.
 */
module LegacyOpportunitiesPage {
  import opened Js
  import Seqs
  import opened Database
  import ContactsPage
  import OpportunitiesPage

  predicate Visible(o: Opportunity, searchTerm: string, stageFilter: string)
  {
    var matchesSearch :=
      searchTerm == ""
      || Includes(ToLowerCase(o.name), ToLowerCase(searchTerm))
      || (o.contact.Some? && o.contact.value.first_name.Some?
          && Includes(ToLowerCase(o.contact.value.first_name.value), ToLowerCase(searchTerm)))
      || (o.contact.Some? && o.contact.value.last_name.Some?
          && Includes(ToLowerCase(o.contact.value.last_name.value), ToLowerCase(searchTerm)))
      || (o.contact.Some? && o.contact.value.company.Some?
          && Includes(ToLowerCase(o.contact.value.company.value), ToLowerCase(searchTerm)));
    var matchesStage := stageFilter == "all" || o.stage == stageFilter;
    matchesSearch && matchesStage
  }

  /** `filteredOpportunities` of the legacy page. */
  function FilteredOpportunities(opportunities: seq<Opportunity>, searchTerm: string, stageFilter: string)
    : (r: seq<Opportunity>)
    ensures Seqs.IsSubsequence(r, opportunities)
    ensures forall o :: o in r <==> o in opportunities && Visible(o, searchTerm, stageFilter)
    ensures forall o {:trigger multiset(r)[o]} ::
              multiset(r)[o] == if Visible(o, searchTerm, stageFilter) then multiset(opportunities)[o] else 0
  {
    var p := (o: Opportunity) => Visible(o, searchTerm, stageFilter);
    Seqs.FilterIsSubsequence(opportunities, p);
    Seqs.Filter(opportunities, p)
  }

  /** The legacy page lists exactly what the current page lists, for every input. */
  lemma {:induction false} SameAsCurrentPage(opportunities: seq<Opportunity>, searchTerm: string, stageFilter: string)
    ensures FilteredOpportunities(opportunities, searchTerm, stageFilter)
            == OpportunitiesPage.FilteredOpportunities(opportunities, searchTerm, stageFilter)
  {
    if opportunities != [] {
      SameAsCurrentPage(opportunities[1..], searchTerm, stageFilter);
    }
  }

  /** Stage "all" keeps every stage; any other filter value demands equality. */
  lemma StageFilterExact(opportunities: seq<Opportunity>, stageFilter: string, o: Opportunity)
    requires o in opportunities
    ensures o in FilteredOpportunities(opportunities, "", stageFilter) <==> stageFilter == "all" || o.stage == stageFilter
  {
  }

  /** `getStageColor` of the legacy page: `-800` text shades, Proposal in yellow. */
  function StageColor(stage: string): string
  {
    if stage == "Lead" then "bg-gray-100 text-gray-800"
    else if stage == "Contacted" then "bg-blue-100 text-blue-800"
    else if stage == "Proposal" then "bg-yellow-100 text-yellow-800"
    else if stage == "Negotiation" then "bg-orange-100 text-orange-800"
    else if stage == "Won" then "bg-green-100 text-green-800"
    else if stage == "Lost" then "bg-red-100 text-red-800"
    else "bg-gray-100 text-gray-800"
  }

  const StageClasses: seq<string> := ["bg-gray-100 text-gray-800", "bg-blue-100 text-blue-800",
                                      "bg-yellow-100 text-yellow-800", "bg-orange-100 text-orange-800",
                                      "bg-green-100 text-green-800", "bg-red-100 text-red-800"]

  /** Each stage is coloured with its own entry of the table. */
  lemma StageColorTable()
    ensures forall i :: 0 <= i < |OpportunityStages| ==> StageColor(OpportunityStages[i]) == StageClasses[i]
  {
    forall i | 0 <= i < |OpportunityStages| ensures StageColor(OpportunityStages[i]) == StageClasses[i] {
      if i == 0 { } else if i == 1 { } else if i == 2 { } else if i == 3 { } else if i == 4 { } else { }
    }
  }

  /** No two stages share a colour: the entries differ in their fourth or sixth character. */
  lemma StageClassesDistinct()
    ensures PairwiseDistinct(StageClasses)
  {
    forall i, j | 0 <= i < j < |StageClasses| ensures StageClasses[i] != StageClasses[j] {
      assert StageClasses[i][3] != StageClasses[j][3] || StageClasses[i][5] != StageClasses[j][5];
    }
  }

  /** Any other string is coloured like a Lead. */
  lemma UnknownStageLooksLikeLead(stage: string)
    requires !IsStage(stage)
    ensures StageColor(stage) == StageColor("Lead")
  {
  }

  /** The two copies of the page colour every stage differently. */
  lemma StageColorsDifferFromCurrentPage(stage: string)
    ensures StageColor(stage) != OpportunitiesPage.StageColor(stage)
  {
  }

  /**
   * `formatCurrency` of the legacy page, which passes `opportunity.currency`
   * straight through; its only difference from the current page lies in the
   * fraction-digit options of the locale formatter, outside this model.
   */
  function FormatCurrency(value: Option<int>, currency: Option<string>): (r: Option<OpportunitiesPage.Money>)
    ensures r.None? <==> value.None? || value.value == 0
    ensures r.Some? ==> r.value.amount == value.value
    ensures r.Some? ==> r.value.currency == if Truthy(currency) then currency.value else "USD"
  {
    if value.None? || value.value == 0 then None
    else Some(OpportunitiesPage.Money(value.value, OrElse(currency, "USD")))
  }

  /** `formatDate` of the legacy page. */
  function FormatDate(dateString: Option<string>): (r: Option<string>)
    ensures r.None? <==> !Truthy(dateString)
    ensures r.Some? ==> r == dateString
  {
    if Truthy(dateString) then dateString else None
  }

  /** `getContactDisplayName` of the legacy page (`contact: any`, falsy means missing). */
  function ContactDisplayName(contact: Option<Contact>): (r: string)
    ensures contact.None? ==> r == "Unknown Contact"
    ensures contact.Some? ==> r == ContactsPage.DisplayName(contact.value) && r != ""
  {
    if contact.None? then "Unknown Contact" else ContactsPage.DisplayName(contact.value)
  }
}
