/**
 * The opportunities list page: search and stage filter, the three summary
 * cards (total pipeline value, won deals, active deals) and the per-card
 * helpers (stage colour, currency and date guards, contact name, tags).
 */
module OpportunitiesPage {
  import opened Js
  import Seqs
  import opened Database
  import ContactsPage

  // ---------------------------------------------------------------------
  // Filter: `filteredOpportunities`

  /** `contact?.field?.toLowerCase().includes(needle)` for first name, last name and company. */
  predicate EmbeddedContactMatches(contact: Option<Contact>, needle: string)
  {
    contact.Some? &&
    (ContactsPage.FieldMatches(contact.value.first_name, needle)
     || ContactsPage.FieldMatches(contact.value.last_name, needle)
     || ContactsPage.FieldMatches(contact.value.company, needle))
  }

  predicate MatchesSearch(o: Opportunity, searchTerm: string)
  {
    searchTerm == ""
    || Includes(ToLowerCase(o.name), ToLowerCase(searchTerm))
    || EmbeddedContactMatches(o.contact, ToLowerCase(searchTerm))
  }

  predicate MatchesStage(o: Opportunity, stageFilter: string)
  {
    stageFilter == "all" || o.stage == stageFilter
  }

  predicate Visible(o: Opportunity, searchTerm: string, stageFilter: string)
  {
    MatchesSearch(o, searchTerm) && MatchesStage(o, stageFilter)
  }

  /** `filteredOpportunities`: the fetched opportunities passing search and stage filter, in fetched order. */
  function FilteredOpportunities(opportunities: seq<Opportunity>, searchTerm: string, stageFilter: string)
    : (r: seq<Opportunity>)
    ensures Seqs.IsSubsequence(r, opportunities)
    ensures forall o :: o in r <==> o in opportunities && Visible(o, searchTerm, stageFilter)
    ensures forall o {:trigger multiset(r)[o]} ::
              multiset(r)[o] == if Visible(o, searchTerm, stageFilter) then multiset(opportunities)[o] else 0
  {
    var p := (o: Opportunity) => Visible(o, searchTerm, stageFilter);
    Seqs.FilterIsSubsequence(opportunities, p);
    Seqs.Filter(opportunities, p)
  }

  /** With no search term, only the stage filter decides: "all" keeps everything, anything else needs an exact stage. */
  lemma EmptySearchIsStageFilter(opportunities: seq<Opportunity>, stageFilter: string, o: Opportunity)
    requires o in opportunities
    ensures o in FilteredOpportunities(opportunities, "", stageFilter) <==> stageFilter == "all" || o.stage == stageFilter
  {
  }

  /** With a search term, a visible opportunity's name or embedded contact contains the lowered term. */
  lemma SearchNeedsTextMatch(opportunities: seq<Opportunity>, searchTerm: string, stageFilter: string, o: Opportunity)
    requires searchTerm != "" && o in opportunities
    ensures o in FilteredOpportunities(opportunities, searchTerm, stageFilter) <==>
              (Includes(ToLowerCase(o.name), ToLowerCase(searchTerm))
               || EmbeddedContactMatches(o.contact, ToLowerCase(searchTerm)))
              && MatchesStage(o, stageFilter)
  {
  }

  /** No search and no stage filter: the page lists everything, in fetched order. */
  lemma NoFilterShowsAll(opportunities: seq<Opportunity>)
    ensures FilteredOpportunities(opportunities, "", "all") == opportunities
  {
    Seqs.FilterKeepsAll(opportunities, (o: Opportunity) => Visible(o, "", "all"));
  }

  // ---------------------------------------------------------------------
  // Summary cards

  /** `opp.value || 0`. */
  function ValueOrZero(o: Opportunity): int
  {
    if o.value.Some? then o.value.value else 0
  }

  /** The sum of the values, missing ones counting 0: the reference the reduction is checked against. */
  function SumValues(s: seq<Opportunity>): int
  {
    if s == [] then 0 else SumValues(s[..|s| - 1]) + ValueOrZero(s[|s| - 1])
  }

  /** `s.reduce((sum, opp) => sum + (opp.value || 0), acc)`, left to right. */
  function ReduceValues(acc: int, s: seq<Opportunity>): int
    decreases |s|
  {
    if s == [] then acc else ReduceValues(acc + ValueOrZero(s[0]), s[1..])
  }

  lemma {:induction false} SumValuesPrepend(o: Opportunity, s: seq<Opportunity>)
    ensures SumValues([o] + s) == ValueOrZero(o) + SumValues(s)
    decreases |s|
  {
    if s != [] {
      assert ([o] + s)[..|s|] == [o] + s[..|s| - 1];
      SumValuesPrepend(o, s[..|s| - 1]);
    } else {
      assert ([o] + s)[..0] == [];
    }
  }

  lemma {:induction false} ReduceIsSum(acc: int, s: seq<Opportunity>)
    ensures ReduceValues(acc, s) == acc + SumValues(s)
    decreases |s|
  {
    if s != [] {
      ReduceIsSum(acc + ValueOrZero(s[0]), s[1..]);
      SumValuesPrepend(s[0], s[1..]);
      assert [s[0]] + s[1..] == s;
    }
  }

  /** `getTotalValue`: the sum of the visible values, a missing value counting 0; 0 for an empty list. */
  function TotalValue(visible: seq<Opportunity>): (total: int)
    ensures total == SumValues(visible)
  {
    ReduceIsSum(0, visible);
    ReduceValues(0, visible)
  }

  /** The total of a concatenation is the sum of the totals. */
  lemma {:induction false} TotalValueAppend(a: seq<Opportunity>, b: seq<Opportunity>)
    ensures TotalValue(a + b) == TotalValue(a) + TotalValue(b)
    decreases |b|
  {
    if b == [] {
      assert a + b == a;
    } else {
      assert (a + b)[..|a + b| - 1] == a + b[..|b| - 1];
      TotalValueAppend(a, b[..|b| - 1]);
    }
  }

  /** With no negative values stored, the pipeline total is not negative. */
  lemma {:induction false} TotalValueNonNegative(visible: seq<Opportunity>)
    requires forall i :: 0 <= i < |visible| ==> ValueOrZero(visible[i]) >= 0
    ensures TotalValue(visible) >= 0
  {
    if visible != [] {
      TotalValueNonNegative(visible[..|visible| - 1]);
    }
  }

  predicate IsWon(o: Opportunity)
  {
    o.stage == "Won"
  }

  predicate IsLost(o: Opportunity)
  {
    o.stage == "Lost"
  }

  /** `!["Won", "Lost"].includes(opp.stage)`. */
  predicate IsActive(o: Opportunity)
  {
    o.stage !in ["Won", "Lost"]
  }

  /** `getWonOpportunities().length`. */
  function WonCount(visible: seq<Opportunity>): (n: nat)
    ensures n <= |visible|
  {
    |Seqs.Filter(visible, IsWon)|
  }

  /** The "Active Opportunities" card. */
  function ActiveCount(visible: seq<Opportunity>): (n: nat)
    ensures n <= |visible|
  {
    |Seqs.Filter(visible, IsActive)|
  }

  /** Every visible deal is won, lost or active, and no deal is two of these. */
  lemma {:induction false} StageCountsPartition(visible: seq<Opportunity>)
    ensures WonCount(visible) + ActiveCount(visible) + |Seqs.Filter(visible, IsLost)| == |visible|
  {
    if visible != [] {
      StageCountsPartition(visible[1..]);
    }
  }

  /** Won deals plus active deals never exceed the visible deals. */
  lemma WonPlusActiveAtMostVisible(visible: seq<Opportunity>)
    ensures WonCount(visible) + ActiveCount(visible) <= |visible|
  {
    StageCountsPartition(visible);
  }

  // ---------------------------------------------------------------------
  // Formatting guards

  /** The arguments handed to `Intl.NumberFormat(...).format`: the amount and the ISO currency code. */
  datatype Money = Money(amount: int, currency: string)

  /** `formatCurrency`: nothing for a null or zero value; otherwise the amount and `currency || "USD"`. */
  function FormatCurrency(value: Option<int>, currency: Option<string>): (r: Option<Money>)
    ensures r.None? <==> value.None? || value.value == 0
    ensures r.Some? ==> r.value.amount == value.value && r.value.amount != 0
    ensures r.Some? ==> r.value.currency == if Truthy(currency) then currency.value else "USD"
  {
    if value.None? || value.value == 0 then None
    else Some(Money(value.value, OrElse(currency, "USD")))
  }

  /** `formatDate`: nothing for a null or empty date, otherwise the date string handed to the locale formatter. */
  function FormatDate(dateString: Option<string>): (r: Option<string>)
    ensures r.None? <==> !Truthy(dateString)
    ensures r.Some? ==> r == dateString
  {
    if Truthy(dateString) then dateString else None
  }

  /** What the "Total Pipeline Value" card shows. */
  datatype CardText = Formatted(money: Money) | Literal(text: string)

  /** `formatCurrency(getTotalValue(), "USD") || "$0"`. */
  function TotalValueCard(visible: seq<Opportunity>): CardText
  {
    var f := FormatCurrency(Some(TotalValue(visible)), Some("USD"));
    if f.Some? then Formatted(f.value) else Literal("$0")
  }

  /** The card falls back to "$0" exactly when the total is 0, and otherwise shows the total in dollars. */
  lemma TotalValueCardFallback(visible: seq<Opportunity>)
    ensures TotalValueCard(visible) == Literal("$0") <==> SumValues(visible) == 0
    ensures SumValues(visible) != 0 ==> TotalValueCard(visible) == Formatted(Money(SumValues(visible), "USD"))
  {
  }

  // ---------------------------------------------------------------------
  // Per-card helpers

  /** `getStageColor`. */
  function StageColor(stage: string): string
  {
    if stage == "Lead" then "bg-gray-100 text-gray-700"
    else if stage == "Contacted" then "bg-blue-100 text-blue-700"
    else if stage == "Proposal" then "bg-amber-100 text-amber-700"
    else if stage == "Negotiation" then "bg-orange-100 text-orange-700"
    else if stage == "Won" then "bg-green-100 text-green-700"
    else if stage == "Lost" then "bg-red-100 text-red-700"
    else "bg-gray-100 text-gray-700"
  }

  /** The badge classes, listed in stage order. */
  const StageClasses: seq<string> := ["bg-gray-100 text-gray-700", "bg-blue-100 text-blue-700",
                                      "bg-amber-100 text-amber-700", "bg-orange-100 text-orange-700",
                                      "bg-green-100 text-green-700", "bg-red-100 text-red-700"]

  /** Each stage is coloured with its own entry of the table. */
  lemma StageColorTable()
    ensures forall i :: 0 <= i < |OpportunityStages| ==> StageColor(OpportunityStages[i]) == StageClasses[i]
  {
    forall i | 0 <= i < |OpportunityStages| ensures StageColor(OpportunityStages[i]) == StageClasses[i] {
      if i == 0 { } else if i == 1 { } else if i == 2 { } else if i == 3 { } else if i == 4 { } else { }
    }
  }

  /** No two stages share a colour: the entries differ in their fourth or sixth character. */
  lemma StageClassesDistinct()
    ensures PairwiseDistinct(StageClasses)
  {
    forall i, j | 0 <= i < j < |StageClasses| ensures StageClasses[i] != StageClasses[j] {
      assert StageClasses[i][3] != StageClasses[j][3] || StageClasses[i][5] != StageClasses[j][5];
    }
  }

  /** Any other string is coloured like a Lead. */
  lemma UnknownStageLooksLikeLead(stage: string)
    requires !IsStage(stage)
    ensures StageColor(stage) == StageColor("Lead")
  {
  }

  /** `getContactDisplayName` of this page: "Unknown Contact" for a missing join, the contact's name otherwise. */
  function ContactDisplayName(contact: Option<Contact>): (r: string)
    ensures contact.None? ==> r == "Unknown Contact"
    ensures contact.Some? ==> r == ContactsPage.DisplayName(contact.value)
  {
    if contact.None? then "Unknown Contact" else ContactsPage.DisplayName(contact.value)
  }

  /** The "High Priority" tag: `priority && priority >= 4`. */
  predicate HighPriority(o: Opportunity)
  {
    o.priority.Some? && o.priority.value != 0 && o.priority.value >= 4
  }

  /** The "High Value" tag: `value && value >= 10000`. */
  predicate HighValue(o: Opportunity)
  {
    o.value.Some? && o.value.value != 0 && o.value.value >= 10000
  }

  /** The tags of a grid card, in display order; the list view shows none. */
  function Tags(o: Opportunity, gridView: bool): (tags: seq<string>)
    ensures !gridView ==> tags == []
    ensures "High Priority" in tags <==> gridView && o.priority.Some? && o.priority.value >= 4
    ensures "High Value" in tags <==> gridView && o.value.Some? && o.value.value >= 10000
  {
    if !gridView then []
    else (if HighPriority(o) then ["High Priority"] else []) + (if HighValue(o) then ["High Value"] else [])
  }

  // ---------------------------------------------------------------------
  // The worked example: "Acme Deal" (Won, 5000) and "Beta Deal" (Lead, no value)

  function Deal(name: string, stage: string, value: Option<int>): Opportunity
  {
    Opportunity("id-" + name, "user", "contact", name, None, value, None, stage, None, None, None, "", "", None)
  }

  lemma ExamplePipeline()
    ensures var deals := [Deal("Acme Deal", "Won", Some(5000)), Deal("Beta Deal", "Lead", None)];
            var visible := FilteredOpportunities(deals, "", "all");
            visible == deals && TotalValue(visible) == 5000 && WonCount(visible) == 1 && ActiveCount(visible) == 1
  {
    var acme, beta := Deal("Acme Deal", "Won", Some(5000)), Deal("Beta Deal", "Lead", None);
    var deals := [acme, beta];
    NoFilterShowsAll(deals);
    assert deals[1..] == [beta] && deals[1..][1..] == [];
    assert deals[..1] == [acme] && deals[..1][..0] == [];
  }

  /** "beta deal" has no "acme" in it. */
  lemma BetaDealLacksAcme()
    ensures !Includes("beta deal", "acme")
  {
    IncludesIffOccurs("beta deal", "acme");
    forall i | 0 <= i <= 5 ensures !OccursAt("beta deal", "acme", i) {
      assert "beta deal"[i] != 'a' || "beta deal"[i + 1] != 'c';
    }
  }

  /** A term lowering to "acme" finds the Acme deal by its name. */
  lemma AcmeDealFound(searchTerm: string)
    requires ToLowerCase(searchTerm) == "acme"
    ensures Visible(Deal("Acme Deal", "Won", Some(5000)), searchTerm, "all")
  {
    var a := ToLowerCase("Acme Deal");
    assert a[..4] == "acme";
    assert "acme" <= a;
  }

  /** A term lowering to "acme" misses the Beta deal, which has no contact to search. */
  lemma BetaDealMissed(searchTerm: string)
    requires ToLowerCase(searchTerm) == "acme"
    ensures !Visible(Deal("Beta Deal", "Lead", None), searchTerm, "all")
  {
    assert |searchTerm| == 4;
    assert ToLowerCase("Beta Deal") == "beta deal";
    BetaDealLacksAcme();
  }

  lemma ExampleSearch(searchTerm: string)
    requires ToLowerCase(searchTerm) == "acme"
    ensures var deals := [Deal("Acme Deal", "Won", Some(5000)), Deal("Beta Deal", "Lead", None)];
            FilteredOpportunities(deals, searchTerm, "all") == [deals[0]]
  {
    var acme, beta := Deal("Acme Deal", "Won", Some(5000)), Deal("Beta Deal", "Lead", None);
    var p := (o: Opportunity) => Visible(o, searchTerm, "all");
    AcmeDealFound(searchTerm);
    BetaDealMissed(searchTerm);
    Seqs.FilterAppend([acme], [beta], p);
    Seqs.FilterSingleton(acme, p);
    Seqs.FilterSingleton(beta, p);
    assert [acme] + [beta] == [acme, beta];
  }

  /** The search ignores case: "ACME" finds the same deal as "acme". */
  lemma ExampleSearchUpperCase()
    ensures var deals := [Deal("Acme Deal", "Won", Some(5000)), Deal("Beta Deal", "Lead", None)];
            FilteredOpportunities(deals, "ACME", "all") == [deals[0]]
  {
    assert ToLowerCase("ACME") == "acme";
    ExampleSearch("ACME");
  }
}
