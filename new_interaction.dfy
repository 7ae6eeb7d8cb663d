/**
 * The "Log New Interaction" form: its schema with the follow-up rule, the
 * defaults, the opportunity picker that follows the chosen contact, the
 * insert payload and the page's loading/error state.
 */
module NewInteractionPage {
  import opened Js
  import opened Validation
  import opened Database
  import Seqs
  import NewOpportunityPage

  /** What the form submits. Text inputs and selects always deliver a string; the checkbox a boolean. */
  datatype InteractionForm = InteractionForm(
    contact_id: string,
    opportunity_id: Option<string>,
    kind: string,
    date_of_interaction: string,
    summary: string,
    follow_up_needed: bool,
    follow_up_date: Option<string>)

  const ContactRequired := "Contact is required"
  const DateRequired := "Date is required"
  const SummaryRequired := "Summary is required"
  const FollowUpDateRequired := "Follow-up date is required when follow-up is needed"

  /** The field checks of `interactionSchema`, in key order. */
  function FieldIssues(f: InteractionForm): seq<Issue>
  {
    Check(f.contact_id != "", Issue("contact_id", Custom(ContactRequired)))
    + Check(IsInteractionType(f.kind), Issue("type", InvalidEnumValue(InteractionTypes, f.kind)))
    + Check(f.date_of_interaction != "", Issue("date_of_interaction", Custom(DateRequired)))
    + Check(f.summary != "", Issue("summary", Custom(SummaryRequired)))
  }

  /** The `.refine`: a follow-up that is needed must have a date. */
  predicate FollowUpComplete(f: InteractionForm)
  {
    !(f.follow_up_needed && !Truthy(f.follow_up_date))
  }

  /**
   * All issues: the field checks, then the refinement, which is skipped when
   * the type is not one of the listed kinds (that issue stops the object).
   */
  function InteractionIssues(f: InteractionForm): seq<Issue>
  {
    var fields := FieldIssues(f);
    if AnyAborts(fields) then fields
    else fields + Check(FollowUpComplete(f), Issue("follow_up_date", Custom(FollowUpDateRequired)))
  }

  /** `interactionSchema.safeParse`. */
  function ParseInteraction(f: InteractionForm): (r: Parsed<InteractionForm>)
    ensures r.Valid? <==> f.contact_id != "" && IsInteractionType(f.kind) && f.date_of_interaction != ""
                          && f.summary != "" && FollowUpComplete(f)
    ensures r.Valid? ==> r.data == f
    ensures r.Invalid? ==> r.issues != []
  {
    var issues := InteractionIssues(f);
    if issues == [] then Valid(f) else Invalid(issues)
  }

  /** Only the type issue stops the object. */
  lemma {:induction false} FieldsAbortOnlyOnType(f: InteractionForm)
    ensures AnyAborts(FieldIssues(f)) <==> !IsInteractionType(f.kind)
  {
    var a := Check(f.contact_id != "", Issue("contact_id", Custom(ContactRequired)));
    var t := Check(IsInteractionType(f.kind), Issue("type", InvalidEnumValue(InteractionTypes, f.kind)));
    var d := Check(f.date_of_interaction != "", Issue("date_of_interaction", Custom(DateRequired)));
    var s := Check(f.summary != "", Issue("summary", Custom(SummaryRequired)));
    var all := FieldIssues(f);
    assert all == a + t + d + s;
    if !IsInteractionType(f.kind) {
      assert all[|a|] == Issue("type", InvalidEnumValue(InteractionTypes, f.kind));
    } else {
      assert all == a + d + s;
      forall k | 0 <= k < |all| ensures !Aborts(all[k].message) {
        if k < |a| { assert all[k] == a[k]; }
        else if k < |a| + |d| { assert all[k] == d[k - |a|]; }
        else { assert all[k] == s[k - |a| - |d|]; }
      }
    }
  }

  /**
   * A needed follow-up without a date is reported on `follow_up_date`, next to
   * any missing contact, date or summary; but not when the type is unknown.
   */
  lemma MissingFollowUpDateReported(f: InteractionForm)
    requires f.follow_up_needed && !Truthy(f.follow_up_date)
    ensures IsInteractionType(f.kind) ==>
              InteractionIssues(f) == FieldIssues(f) + [Issue("follow_up_date", Custom(FollowUpDateRequired))]
    ensures !IsInteractionType(f.kind) ==> InteractionIssues(f) == FieldIssues(f)
    ensures ParseInteraction(f).Invalid?
  {
    FieldsAbortOnlyOnType(f);
  }

  /** Without a follow-up, its date is never asked for, and it does not matter what it holds. */
  lemma FollowUpDateIrrelevantWhenNotNeeded(f: InteractionForm, date: Option<string>)
    requires !f.follow_up_needed
    ensures InteractionIssues(f) == InteractionIssues(f.(follow_up_date := date))
  {
    assert FieldIssues(f) == FieldIssues(f.(follow_up_date := date));
  }

  // ---------------------------------------------------------------------
  // Defaults

  /** `new Date().toISOString().slice(0, 16)`: the date, hours and minutes of the current instant. */
  function DefaultDate(nowIso: string): (d: string)
    ensures d <= nowIso
    ensures |d| == if |nowIso| < 16 then |nowIso| else 16
  {
    if |nowIso| < 16 then nowIso else nowIso[..16]
  }

  /**
   * What an untouched form submits: the defaults and blank text in the
   * rendered inputs. The opportunity select and the follow-up date are not
   * rendered yet (no contact chosen, no follow-up ticked), so both are undefined.
   */
  function UntouchedForm(nowIso: string): (f: InteractionForm)
    ensures f.kind == "Email" && !f.follow_up_needed && f.date_of_interaction == DefaultDate(nowIso)
    ensures f.opportunity_id.None? && f.follow_up_date.None?
  {
    InteractionForm("", None, "Email", DefaultDate(nowIso), "", false, None)
  }

  /** An untouched form lacks a contact and a summary; with an ISO timestamp the date is filled in. */
  lemma UntouchedFormNeedsContactAndSummary(nowIso: string)
    requires nowIso != ""
    ensures InteractionIssues(UntouchedForm(nowIso))
            == [Issue("contact_id", Custom(ContactRequired)), Issue("summary", Custom(SummaryRequired))]
  {
    var f := UntouchedForm(nowIso);
    assert IsInteractionType("Email") by { assert InteractionTypes[0] == "Email"; }
    assert f.date_of_interaction != "" by { assert |DefaultDate(nowIso)| > 0; }
    FieldsAbortOnlyOnType(f);
  }

  // ---------------------------------------------------------------------
  // The opportunity picker

  /** `opportunities.filter(opp => opp.contact_id === selectedContactId)`. */
  function OpportunitiesForContact(opportunities: seq<Opportunity>, contactId: string): (r: seq<Opportunity>)
    ensures Seqs.IsSubsequence(r, opportunities)
    ensures forall o :: o in r <==> o in opportunities && o.contact_id == contactId
    ensures forall o {:trigger multiset(r)[o]} ::
              multiset(r)[o] == if o.contact_id == contactId then multiset(opportunities)[o] else 0
  {
    var p := (o: Opportunity) => o.contact_id == contactId;
    Seqs.FilterIsSubsequence(opportunities, p);
    Seqs.Filter(opportunities, p)
  }

  /** Loading more opportunities for other contacts changes nobody's picker but theirs. */
  lemma {:induction false} PickerIgnoresOtherContacts(opportunities: seq<Opportunity>, others: seq<Opportunity>, contactId: string)
    requires forall o :: o in others ==> o.contact_id != contactId
    ensures OpportunitiesForContact(opportunities + others, contactId) == OpportunitiesForContact(opportunities, contactId)
  {
    var p := (o: Opportunity) => o.contact_id == contactId;
    Seqs.FilterAppend(opportunities, others, p);
    NoneForContact(others, contactId);
    assert Seqs.Filter(opportunities, p) + [] == Seqs.Filter(opportunities, p);
  }

  lemma {:induction false} NoneForContact(others: seq<Opportunity>, contactId: string)
    requires forall o :: o in others ==> o.contact_id != contactId
    ensures Seqs.Filter(others, (o: Opportunity) => o.contact_id == contactId) == []
  {
    if others != [] {
      assert others[0] in others;
      forall o | o in others[1..] ensures o.contact_id != contactId {
        assert o in others;
      }
      NoneForContact(others[1..], contactId);
    }
  }

  /** `getContactDisplayName` of this form, the same label as the opportunity form's. */
  function ContactOptionLabel(c: Contact): (text: string)
    ensures text == NewOpportunityPage.ContactOptionLabel(c)
  {
    NewOpportunityPage.ContactOptionLabel(c)
  }

  // ---------------------------------------------------------------------
  // The insert payload

  datatype InteractionInsert = InteractionInsert(
    user_id: string,
    contact_id: string,
    opportunity_id: Option<string>,
    kind: string,
    date_of_interaction: string,
    summary: string,
    follow_up_needed: bool,
    follow_up_date: Option<string>)

  /** `interactionData`: the checked data, the owner, `|| null` on the opportunity, and no date for an unneeded follow-up. */
  function InteractionData(d: InteractionForm, userId: string): (p: InteractionInsert)
    ensures p.user_id == userId
    ensures p.opportunity_id.None? <==> !Truthy(d.opportunity_id)
    ensures p.opportunity_id.Some? ==> p.opportunity_id == d.opportunity_id
    ensures p.follow_up_date == if d.follow_up_needed then d.follow_up_date else None
    ensures p.contact_id == d.contact_id && p.kind == d.kind && p.date_of_interaction == d.date_of_interaction
    ensures p.summary == d.summary && p.follow_up_needed == d.follow_up_needed
  {
    InteractionInsert(userId, d.contact_id, OrNull(d.opportunity_id), d.kind, d.date_of_interaction, d.summary,
                      d.follow_up_needed, if d.follow_up_needed then d.follow_up_date else None)
  }

  /** An accepted form stores a follow-up date exactly when a follow-up is needed, and then a non-empty one. */
  lemma AcceptedPayloadFollowUp(f: InteractionForm, userId: string)
    requires ParseInteraction(f).Valid?
    ensures var p := InteractionData(f, userId);
            (p.follow_up_date.Some? <==> f.follow_up_needed)
            && (p.follow_up_date.Some? ==> p.follow_up_date.value != "")
            && IsInteractionType(p.kind)
  {
  }

  // ---------------------------------------------------------------------
  // The page

  class NewInteractionForm {
    var contacts: seq<Contact>
    var opportunities: seq<Opportunity>
    var selectedContactOpportunities: seq<Opportunity>
    /** The form's current `opportunity_id` value. */
    var opportunityId: Option<string>
    var dataLoading: bool
    var isLoading: bool
    var error: Option<string>

    /** Every opportunity offered in the picker belongs to the chosen contact and was fetched. */
    predicate PickerConsistent(contactId: string)
      reads this
    {
      forall o :: o in selectedContactOpportunities ==> o in opportunities && o.contact_id == contactId
    }

    /** The opportunity select is shown only when the contact has opportunities. */
    predicate ShowsOpportunityPicker()
      reads this
    {
      |selectedContactOpportunities| > 0
    }

    constructor ()
      ensures contacts == [] && opportunities == [] && selectedContactOpportunities == []
      ensures opportunityId == None && dataLoading && !isLoading && error == None
    {
      contacts := [];
      opportunities := [];
      selectedContactOpportunities := [];
      opportunityId := None;
      dataLoading := true;
      isLoading := false;
      error := None;
    }

    /**
     * The effect on `[selectedContactId, opportunities]`: for a chosen contact,
     * offer its opportunities and clear the chosen opportunity; with no
     * contact chosen, leave everything as it is.
     */
    method ContactEffect(selectedContactId: Option<string>)
      modifies this
      ensures Truthy(selectedContactId) ==>
                selectedContactOpportunities == OpportunitiesForContact(opportunities, selectedContactId.value)
                && opportunityId == Some("")
      ensures Truthy(selectedContactId) ==> PickerConsistent(selectedContactId.value)
      ensures Truthy(selectedContactId) ==>
                (ShowsOpportunityPicker() <==> exists o :: o in opportunities && o.contact_id == selectedContactId.value)
      ensures !Truthy(selectedContactId) ==>
                selectedContactOpportunities == old(selectedContactOpportunities) && opportunityId == old(opportunityId)
      ensures contacts == old(contacts) && opportunities == old(opportunities)
      ensures dataLoading == old(dataLoading) && isLoading == old(isLoading) && error == old(error)
    {
      if Truthy(selectedContactId) {
        selectedContactOpportunities := OpportunitiesForContact(opportunities, selectedContactId.value);
        opportunityId := Some("");
      }
    }

    /**
     * `fetchData` has answered. Both lists are kept as they were if either
     * query failed; otherwise each is replaced by its rows (null as none).
     * Loading ends.
     */
    method DataFetched(contactsResponse: Fetch<Contact>, opportunitiesResponse: Fetch<Opportunity>)
      modifies this
      ensures contactsResponse.Rows? && opportunitiesResponse.Rows? ==>
                contacts == RowsOrEmpty(contactsResponse.data) && opportunities == RowsOrEmpty(opportunitiesResponse.data)
      ensures contactsResponse.Failed? || opportunitiesResponse.Failed? ==>
                contacts == old(contacts) && opportunities == old(opportunities)
      ensures !dataLoading
      ensures selectedContactOpportunities == old(selectedContactOpportunities) && opportunityId == old(opportunityId)
      ensures isLoading == old(isLoading) && error == old(error)
    {
      if contactsResponse.Rows? && opportunitiesResponse.Rows? {
        contacts := RowsOrEmpty(contactsResponse.data);
        opportunities := RowsOrEmpty(opportunitiesResponse.data);
      }
      dataLoading := false;
    }

    /**
     * `handleSubmit(onSubmit)` up to the insert. `form` holds the values the
     * form library hands over, so its opportunity is the field the contact
     * effect clears.
     */
    method Submit(form: InteractionForm, userId: Option<string>) returns (s: Submission<InteractionInsert>)
      requires form.opportunity_id == opportunityId
      modifies this
      ensures ParseInteraction(form).Invalid? ==> s == Rejected(ParseInteraction(form).issues)
      ensures ParseInteraction(form).Valid? && userId.None? ==> s == SignedOut
      ensures ParseInteraction(form).Valid? && userId.Some? ==>
                s == Sent(InteractionData(form, userId.value)) && isLoading && error == None
      ensures !s.Sent? ==> isLoading == old(isLoading) && error == old(error)
      ensures contacts == old(contacts) && opportunities == old(opportunities)
      ensures selectedContactOpportunities == old(selectedContactOpportunities) && opportunityId == old(opportunityId)
      ensures dataLoading == old(dataLoading)
    {
      var parsed := ParseInteraction(form);
      if parsed.Invalid? {
        return Rejected(parsed.issues);
      }
      if userId.None? {
        return SignedOut;
      }
      isLoading := true;
      error := None;
      s := Sent(InteractionData(parsed.data, userId.value));
    }

    /**
     * The insert's outcome: navigate on success; on failure show the thrown
     * value's `message`, with no fallback text (a value without one shows no
     * banner). Loading ends.
     */
    method Finish(failure: Option<ErrorValue>) returns (navigated: bool)
      modifies this
      ensures navigated <==> failure.None?
      ensures !isLoading
      ensures error == if failure.Some? then MessageProperty(failure.value) else old(error)
      ensures contacts == old(contacts) && opportunities == old(opportunities)
      ensures selectedContactOpportunities == old(selectedContactOpportunities) && opportunityId == old(opportunityId)
      ensures dataLoading == old(dataLoading)
    {
      if failure.Some? {
        error := MessageProperty(failure.value);
      }
      navigated := failure.None?;
      isLoading := false;
    }
  }
}
