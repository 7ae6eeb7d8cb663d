/**
 * The record shapes the CRM stores (contacts, opportunities, interactions and
 * profiles) and its two fixed enumerations. Optional columns are `Js.Option`;
 * timestamps and dates stay the strings the database returns.
 */
module Database {
  import opened Js

  /** A person in the user's network. Apart from the identity and timestamp columns, every field may be missing. */
  datatype Contact = Contact(
    id: string,
    user_id: string,
    first_name: Option<string>,
    last_name: Option<string>,
    email: Option<string>,
    phone: Option<string>,
    company: Option<string>,
    role_title: Option<string>,
    notes: Option<string>,
    source: Option<string>,
    linkedin_url: Option<string>,
    twitter_url: Option<string>,
    website: Option<string>,
    address: Option<string>,
    birthday: Option<string>,
    created_at: string,
    updated_at: string)

  /** A sales deal with one contact; `contact` is the row embedded by a join, when the query asked for it. */
  datatype Opportunity = Opportunity(
    id: string,
    user_id: string,
    contact_id: string,
    name: string,
    description: Option<string>,
    value: Option<int>,
    currency: Option<string>,
    stage: string,
    expected_close_date: Option<string>,
    actual_close_date: Option<string>,
    priority: Option<int>,
    created_at: string,
    updated_at: string,
    contact: Option<Contact>)

  /** A logged communication with a contact, optionally about one opportunity. */
  datatype Interaction = Interaction(
    id: string,
    user_id: string,
    contact_id: string,
    opportunity_id: Option<string>,
    kind: string,
    date_of_interaction: string,
    summary: string,
    follow_up_needed: bool,
    follow_up_date: Option<string>,
    created_at: string,
    updated_at: string,
    contact: Option<Contact>,
    opportunity: Option<Opportunity>)

  /** Per-user settings. */
  datatype Profile = Profile(
    id: string,
    user_id: string,
    time_zone: Option<string>,
    currency: Option<string>)

  /** `OPPORTUNITY_STAGES`, in display order. */
  const OpportunityStages: seq<string> := ["Lead", "Contacted", "Proposal", "Negotiation", "Won", "Lost"]

  /** `INTERACTION_TYPES`, in display order. */
  const InteractionTypes: seq<string> := ["Email", "Call", "Meeting", "Note", "LinkedIn", "Other"]

  predicate IsStage(s: string)
  {
    s in OpportunityStages
  }

  predicate IsInteractionType(s: string)
  {
    s in InteractionTypes
  }

  ghost predicate PairwiseDistinct(s: seq<string>)
  {
    forall i, j :: 0 <= i < j < |s| ==> s[i] != s[j]
  }

  /** The six stages, in order, with no repetition. */
  lemma StagesAreFixed()
    ensures |OpportunityStages| == 6
    ensures OpportunityStages[0] == "Lead" && OpportunityStages[5] == "Lost"
    ensures PairwiseDistinct(OpportunityStages)
    ensures forall s :: IsStage(s) <==>
              (s == "Lead" || s == "Contacted" || s == "Proposal" || s == "Negotiation" || s == "Won" || s == "Lost")
  {
  }

  /** The six interaction types, in order, with no repetition. */
  lemma InteractionTypesAreFixed()
    ensures |InteractionTypes| == 6
    ensures InteractionTypes[0] == "Email" && InteractionTypes[5] == "Other"
    ensures PairwiseDistinct(InteractionTypes)
    ensures forall s :: IsInteractionType(s) <==>
              (s == "Email" || s == "Call" || s == "Meeting" || s == "Note" || s == "LinkedIn" || s == "Other")
  {
  }

  /** A contact carrying only its required columns: the identity and the two timestamps. */
  function MinimalContact(id: string, user_id: string, created_at: string, updated_at: string): (c: Contact)
    ensures c.id == id && c.user_id == user_id && c.created_at == created_at && c.updated_at == updated_at
    ensures c.first_name.None? && c.last_name.None? && c.email.None? && c.phone.None? && c.company.None?
    ensures c.role_title.None? && c.notes.None? && c.source.None?
    ensures c.linkedin_url.None? && c.twitter_url.None? && c.website.None?
    ensures c.address.None? && c.birthday.None?
  {
    Contact(id, user_id, None, None, None, None, None, None, None, None, None, None, None, None, None,
            created_at, updated_at)
  }
}
