/**
 * The interactions list page: search and type filter, the contact name, the
 * follow-up badge and its overdue test.
 */
module InteractionsPage {
  import opened Js
  import Seqs
  import opened Database
  import ContactsPage
  import OpportunitiesPage

  predicate MatchesSearch(i: Interaction, searchTerm: string)
  {
    searchTerm == ""
    || Includes(ToLowerCase(i.summary), ToLowerCase(searchTerm))
    || OpportunitiesPage.EmbeddedContactMatches(i.contact, ToLowerCase(searchTerm))
  }

  predicate MatchesType(i: Interaction, typeFilter: string)
  {
    typeFilter == "all" || i.kind == typeFilter
  }

  predicate Visible(i: Interaction, searchTerm: string, typeFilter: string)
  {
    MatchesSearch(i, searchTerm) && MatchesType(i, typeFilter)
  }

  /** `filteredInteractions`: the fetched interactions passing search and type filter, in fetched order. */
  function FilteredInteractions(interactions: seq<Interaction>, searchTerm: string, typeFilter: string)
    : (r: seq<Interaction>)
    ensures Seqs.IsSubsequence(r, interactions)
    ensures forall i :: i in r <==> i in interactions && Visible(i, searchTerm, typeFilter)
    ensures forall i {:trigger multiset(r)[i]} ::
              multiset(r)[i] == if Visible(i, searchTerm, typeFilter) then multiset(interactions)[i] else 0
  {
    var p := (i: Interaction) => Visible(i, searchTerm, typeFilter);
    Seqs.FilterIsSubsequence(interactions, p);
    Seqs.Filter(interactions, p)
  }

  /** With no search term, only the type filter decides. */
  lemma EmptySearchIsTypeFilter(interactions: seq<Interaction>, typeFilter: string, i: Interaction)
    requires i in interactions
    ensures i in FilteredInteractions(interactions, "", typeFilter) <==> typeFilter == "all" || i.kind == typeFilter
  {
  }

  /** With a search term, the lowered term must occur in the summary or in the embedded contact. */
  lemma SearchNeedsTextMatch(interactions: seq<Interaction>, searchTerm: string, typeFilter: string, i: Interaction)
    requires searchTerm != "" && i in interactions
    ensures i in FilteredInteractions(interactions, searchTerm, typeFilter) <==>
              (Includes(ToLowerCase(i.summary), ToLowerCase(searchTerm))
               || OpportunitiesPage.EmbeddedContactMatches(i.contact, ToLowerCase(searchTerm)))
              && MatchesType(i, typeFilter)
  {
  }

  /** Without an embedded contact a search can only hit the summary. */
  lemma NoContactSearchesSummaryOnly(interactions: seq<Interaction>, searchTerm: string, typeFilter: string, i: Interaction)
    requires searchTerm != "" && i in interactions && i.contact.None?
    ensures i in FilteredInteractions(interactions, searchTerm, typeFilter) <==>
              Includes(ToLowerCase(i.summary), ToLowerCase(searchTerm)) && MatchesType(i, typeFilter)
  {
  }

  /** `getContactDisplayName` of this page. */
  function ContactDisplayName(contact: Option<Contact>): (r: string)
    ensures contact.None? ==> r == "Unknown Contact"
    ensures contact.Some? ==> r == ContactsPage.DisplayName(contact.value)
  {
    if contact.None? then "Unknown Contact" else ContactsPage.DisplayName(contact.value)
  }

  /** `formatDate`: nothing for a null or empty date. */
  function FormatDate(dateString: Option<string>): (r: Option<string>)
    ensures r.None? <==> !Truthy(dateString)
    ensures r.Some? ==> r == dateString
  {
    if Truthy(dateString) then dateString else None
  }

  /**
   * `isFollowUpOverdue`. `parseDate` stands for `new Date(s)` read as a
   * timestamp (`None` for an invalid date, whose `NaN` compares false), and
   * `now` for `new Date()`.
   */
  function IsFollowUpOverdue(followUpDate: Option<string>, now: int, parseDate: string -> Option<int>): (overdue: bool)
    ensures !Truthy(followUpDate) ==> !overdue
    ensures Truthy(followUpDate) && parseDate(followUpDate.value).Some? ==>
              (overdue <==> parseDate(followUpDate.value).value < now)
    ensures Truthy(followUpDate) && parseDate(followUpDate.value).None? ==> !overdue
  {
    if !Truthy(followUpDate) then false
    else
      var t := parseDate(followUpDate.value);
      t.Some? && t.value < now
  }

  /** A follow-up a day in the past is overdue; one a day in the future, or right now, is not. */
  lemma OverdueExample(date: string, now: int, parseDate: string -> Option<int>)
    requires date != ""
    ensures parseDate(date) == Some(now - 86_400_000) ==> IsFollowUpOverdue(Some(date), now, parseDate)
    ensures parseDate(date) == Some(now + 86_400_000) ==> !IsFollowUpOverdue(Some(date), now, parseDate)
    ensures parseDate(date) == Some(now) ==> !IsFollowUpOverdue(Some(date), now, parseDate)
  {
  }

  /** How the follow-up badge renders. */
  datatype Badge = NoBadge | Pending(date: string) | Overdue(date: string)

  /** `follow_up_needed && follow_up_date && (...)`, coloured by the overdue test. */
  function FollowUpBadge(i: Interaction, now: int, parseDate: string -> Option<int>): (b: Badge)
    ensures b != NoBadge <==> i.follow_up_needed && Truthy(i.follow_up_date)
    ensures b.Overdue? <==> i.follow_up_needed && IsFollowUpOverdue(i.follow_up_date, now, parseDate)
    ensures b != NoBadge ==> b.date == i.follow_up_date.value
  {
    if !(i.follow_up_needed && Truthy(i.follow_up_date)) then NoBadge
    else if IsFollowUpOverdue(i.follow_up_date, now, parseDate) then Overdue(i.follow_up_date.value)
    else Pending(i.follow_up_date.value)
  }
}
