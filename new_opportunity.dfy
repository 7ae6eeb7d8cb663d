/**
 * The "Add New Opportunity" form: its schema, the defaults an untouched form
 * submits, the insert payload, the contact picker's labels, and the page's
 * loading/error state.
 *
 * The two number fields go through `z.coerce.number()`, which reads the
 * empty text of a blank input as 0. As written, a blank value or a blank
 * priority is therefore refused although both are optional; the model keeps
 * that parse (`ParseOpportunityAsWritten`) beside the evidently intended one
 * (`ParseOpportunity`, a blank field counts as missing). The page class
 * submits with the written parse, and offers the intended one beside it.
 */
module NewOpportunityPage {
  import opened Js
  import opened Validation
  import opened Database
  import ContactsPage

  /** What a number field of the form hands to the schema. */
  datatype NumberInput =
    | Missing              // undefined
    | Blank                // the empty text of an untouched input or of the "Select priority" option
    | Numeral(n: int)      // text that reads as the number n
    | NotNumeric           // text that reads as NaN

  /** A number after coercion: undefined (let through by `.optional()`), a number, or NaN. */
  datatype Coerced = Undefined | Num(n: int) | NaN

  /** `z.coerce.number().optional()`: `Number(x)` unless x is undefined; `Number("")` is 0. */
  function CoerceAsWritten(x: NumberInput): (c: Coerced)
    ensures x == Blank ==> c == Num(0)
    ensures c.Undefined? <==> x.Missing?
  {
    match x
    case Missing => Undefined
    case Blank => Num(0)
    case Numeral(n) => Num(n)
    case NotNumeric => NaN
  }

  /** The intended coercion: a blank field is as good as a missing one. */
  function Coerce(x: NumberInput): (c: Coerced)
    ensures c.Undefined? <==> x.Missing? || x.Blank?
    ensures x != Blank ==> c == CoerceAsWritten(x)
  {
    if x.Blank? then Undefined else CoerceAsWritten(x)
  }

  const NameRequired := "Opportunity name is required"
  const ContactRequired := "Contact is required"
  const ValueMustBePositive := "Value must be positive"

  predicate ValueAccepted(c: Coerced)
  {
    c.Undefined? || (c.Num? && c.n > 0)
  }

  predicate PriorityAccepted(c: Coerced)
  {
    c.Undefined? || (c.Num? && 1 <= c.n <= 5)
  }

  /** `.positive("Value must be positive")`; NaN fails the type check instead. */
  function ValueIssues(c: Coerced): (issues: seq<Issue>)
    ensures issues == [] <==> ValueAccepted(c)
  {
    match c
    case Undefined => []
    case NaN => [Issue("value", NotANumber)]
    case Num(n) => Check(n > 0, Issue("value", Custom(ValueMustBePositive)))
  }

  /** `.min(1).max(5)` with the library's own messages; both bounds are checked. */
  function PriorityIssues(c: Coerced): (issues: seq<Issue>)
    ensures issues == [] <==> PriorityAccepted(c)
  {
    match c
    case Undefined => []
    case NaN => [Issue("priority", NotANumber)]
    case Num(n) => Check(n >= 1, Issue("priority", TooSmall(1))) + Check(n <= 5, Issue("priority", TooBig(5)))
  }

  /** What the form submits. Text inputs and selects always deliver a string. */
  datatype OpportunityForm = OpportunityForm(
    name: string,
    contact_id: string,
    description: Option<string>,
    value: NumberInput,
    currency: Option<string>,
    stage: string,
    expected_close_date: Option<string>,
    priority: NumberInput)

  /** The checked data handed to `onSubmit`. */
  datatype OpportunityFormData = OpportunityFormData(
    name: string,
    contact_id: string,
    description: Option<string>,
    value: Option<int>,
    currency: Option<string>,
    stage: string,
    expected_close_date: Option<string>,
    priority: Option<int>)

  /** The number a coerced field holds once it has been accepted. */
  function NumberOf(c: Coerced): Option<int>
  {
    if c.Num? then Some(c.n) else None
  }

  /** The schema's issues, in key order, for a given coercion of the number fields. */
  function IssuesWith(f: OpportunityForm, value: Coerced, priority: Coerced): seq<Issue>
  {
    Check(f.name != "", Issue("name", Custom(NameRequired)))
    + Check(f.contact_id != "", Issue("contact_id", Custom(ContactRequired)))
    + ValueIssues(value)
    + Check(IsStage(f.stage), Issue("stage", InvalidEnumValue(OpportunityStages, f.stage)))
    + PriorityIssues(priority)
  }

  function ParseWith(f: OpportunityForm, value: Coerced, priority: Coerced): (r: Parsed<OpportunityFormData>)
    ensures r.Valid? <==> f.name != "" && f.contact_id != "" && ValueAccepted(value) && IsStage(f.stage)
                          && PriorityAccepted(priority)
    ensures r.Valid? ==> r.data == OpportunityFormData(f.name, f.contact_id, f.description, NumberOf(value),
                                                       f.currency, f.stage, f.expected_close_date, NumberOf(priority))
    ensures r.Invalid? ==> r.issues != []
  {
    var issues := IssuesWith(f, value, priority);
    if issues == [] then
      Valid(OpportunityFormData(f.name, f.contact_id, f.description, NumberOf(value),
                                f.currency, f.stage, f.expected_close_date, NumberOf(priority)))
    else Invalid(issues)
  }

  /** `opportunitySchema.safeParse` as written. */
  function ParseOpportunityAsWritten(f: OpportunityForm): (r: Parsed<OpportunityFormData>)
    ensures r.Valid? ==> (r.data.value.None? <==> f.value.Missing?)
    ensures r.Valid? ==> (r.data.priority.None? <==> f.priority.Missing?)
  {
    ParseWith(f, CoerceAsWritten(f.value), CoerceAsWritten(f.priority))
  }

  /** The schema as intended: blank number fields are left out rather than read as 0. */
  function ParseOpportunity(f: OpportunityForm): (r: Parsed<OpportunityFormData>)
    ensures r.Valid? <==> f.name != "" && f.contact_id != "" && IsStage(f.stage)
                          && ValueAccepted(Coerce(f.value)) && PriorityAccepted(Coerce(f.priority))
    ensures r.Valid? ==> (r.data.value.None? <==> f.value.Missing? || f.value.Blank?)
    ensures r.Valid? ==> (r.data.priority.None? <==> f.priority.Missing? || f.priority.Blank?)
  {
    ParseWith(f, Coerce(f.value), Coerce(f.priority))
  }

  /**
   * As written, a blank value or a blank priority is always refused: the
   * value with the schema's "must be positive" message, the priority with the
   * "at least 1" default, although the schema calls both optional.
   */
  lemma BlankNumbersRejectedAsWritten(f: OpportunityForm)
    requires f.value == Blank || f.priority == Blank
    ensures ParseOpportunityAsWritten(f).Invalid?
    ensures f.value == Blank ==> Issue("value", Custom(ValueMustBePositive)) in ParseOpportunityAsWritten(f).issues
    ensures f.priority == Blank ==> Issue("priority", TooSmall(1)) in ParseOpportunityAsWritten(f).issues
  {
    var issues := IssuesWith(f, CoerceAsWritten(f.value), CoerceAsWritten(f.priority));
    var front := Check(f.name != "", Issue("name", Custom(NameRequired)))
                 + Check(f.contact_id != "", Issue("contact_id", Custom(ContactRequired)));
    var stage := Check(IsStage(f.stage), Issue("stage", InvalidEnumValue(OpportunityStages, f.stage)));
    assert issues == front + ValueIssues(CoerceAsWritten(f.value)) + stage + PriorityIssues(CoerceAsWritten(f.priority));
    if f.value == Blank {
      assert ValueIssues(CoerceAsWritten(f.value)) == [Issue("value", Custom(ValueMustBePositive))];
      assert issues[|front|] == Issue("value", Custom(ValueMustBePositive));
    }
    if f.priority == Blank {
      var k := |front| + |ValueIssues(CoerceAsWritten(f.value))| + |stage|;
      assert PriorityIssues(CoerceAsWritten(f.priority))[0] == Issue("priority", TooSmall(1));
      assert issues[k] == Issue("priority", TooSmall(1));
    }
  }

  /** What an untouched form submits once a name and a contact are chosen: the defaults, and blank text in the other inputs. */
  function UntouchedForm(name: string, contactId: string): (f: OpportunityForm)
    ensures f.stage == "Lead" && f.currency == Some("USD")
    ensures f.value == Blank && f.priority == Blank
  {
    OpportunityForm(name, contactId, Some(""), Blank, Some("USD"), "Lead", Some(""), Blank)
  }

  /** As written, the untouched form is refused with exactly the two number issues. */
  lemma UntouchedFormRejectedAsWritten()
    ensures ParseOpportunityAsWritten(UntouchedForm("Acme renewal", "c1"))
            == Invalid([Issue("value", Custom(ValueMustBePositive)), Issue("priority", TooSmall(1))])
  {
    assert IsStage("Lead") by { assert OpportunityStages[0] == "Lead"; }
  }

  /** As intended, the untouched form is accepted with no value and no priority. */
  lemma UntouchedFormAccepted(name: string, contactId: string)
    requires name != "" && contactId != ""
    ensures ParseOpportunity(UntouchedForm(name, contactId))
            == Valid(OpportunityFormData(name, contactId, Some(""), None, Some("USD"), "Lead", Some(""), None))
  {
    assert IsStage("Lead") by { assert OpportunityStages[0] == "Lead"; }
  }

  /** The correction changes nothing for a form whose number fields are not blank. */
  lemma CorrectionOnlyAffectsBlanks(f: OpportunityForm)
    requires f.value != Blank && f.priority != Blank
    ensures ParseOpportunity(f) == ParseOpportunityAsWritten(f)
  {
  }

  /** Every form the intended schema accepts and the written one refuses has a blank number field. */
  lemma CorrectionAcceptsMore(f: OpportunityForm)
    ensures ParseOpportunityAsWritten(f).Valid? ==> ParseOpportunity(f).Valid?
    ensures ParseOpportunity(f).Valid? && ParseOpportunityAsWritten(f).Invalid? ==> f.value == Blank || f.priority == Blank
  {
  }

  // ---------------------------------------------------------------------
  // The insert payload

  datatype OpportunityInsert = OpportunityInsert(
    user_id: string,
    name: string,
    contact_id: string,
    description: Option<string>,
    value: Option<int>,
    currency: Option<string>,
    stage: string,
    expected_close_date: Option<string>,
    priority: Option<int>)

  /** `opportunityData`: the checked data, the owner, and `|| null` on value, close date and priority. */
  function OpportunityData(d: OpportunityFormData, userId: string): (p: OpportunityInsert)
    ensures p.user_id == userId
    ensures p.value.None? <==> d.value.None? || d.value.value == 0
    ensures p.priority.None? <==> d.priority.None? || d.priority.value == 0
    ensures p.expected_close_date.None? <==> !Truthy(d.expected_close_date)
    ensures p.value.Some? ==> p.value == d.value
    ensures p.priority.Some? ==> p.priority == d.priority
    ensures p.expected_close_date.Some? ==> p.expected_close_date == d.expected_close_date
    ensures p.name == d.name && p.contact_id == d.contact_id && p.description == d.description
    ensures p.currency == d.currency && p.stage == d.stage
  {
    OpportunityInsert(userId, d.name, d.contact_id, d.description, NumberOrNull(d.value), d.currency, d.stage,
                      OrNull(d.expected_close_date), NumberOrNull(d.priority))
  }

  /**
   * A payload built from an accepted form keeps every number the user
   * entered (none of them is 0, so `|| null` drops nothing), names a known
   * stage, and a priority between 1 and 5.
   */
  lemma AcceptedPayload(f: OpportunityForm, userId: string)
    requires ParseOpportunity(f).Valid?
    ensures var p := OpportunityData(ParseOpportunity(f).data, userId);
            IsStage(p.stage) && p.name != "" && p.contact_id != ""
            && (f.value.Numeral? ==> p.value == Some(f.value.n) && f.value.n > 0)
            && (!f.value.Numeral? ==> p.value.None?)
            && (f.priority.Numeral? ==> p.priority == Some(f.priority.n) && 1 <= f.priority.n <= 5)
            && (!f.priority.Numeral? ==> p.priority.None?)
  {
  }

  // ---------------------------------------------------------------------
  // The contact picker

  /** `getContactDisplayName` of this form: the contact's display name, and its company in parentheses when there is one. */
  function ContactOptionLabel(c: Contact): (text: string)
    ensures Truthy(c.company) ==> text == ContactsPage.DisplayName(c) + " (" + c.company.value + ")"
    ensures !Truthy(c.company) ==> text == ContactsPage.DisplayName(c)
  {
    ContactsPage.DisplayName(c) + (if Truthy(c.company) then " (" + c.company.value + ")" else "")
  }

  /** Two contacts of the same name are told apart by their companies, and a label is never empty. */
  lemma LabelsSeparateCompanies(c: Contact, d: Contact)
    requires ContactsPage.DisplayName(c) == ContactsPage.DisplayName(d)
    requires Truthy(c.company) && Truthy(d.company) && c.company != d.company
    ensures ContactOptionLabel(c) != ContactOptionLabel(d)
    ensures ContactOptionLabel(c) != ""
  {
    var n := ContactsPage.DisplayName(c);
    var a := ContactOptionLabel(c);
    var b := ContactOptionLabel(d);
    assert a[|n| + 2..|a| - 1] == c.company.value;
    assert b[|n| + 2..|b| - 1] == d.company.value;
  }

  // ---------------------------------------------------------------------
  // The page

  class NewOpportunityForm {
    var contacts: seq<Contact>
    var contactsLoading: bool
    var isLoading: bool
    var error: Option<string>

    constructor ()
      ensures contacts == [] && contactsLoading && !isLoading && error == None
    {
      contacts := [];
      contactsLoading := true;
      isLoading := false;
      error := None;
    }

    /** `fetchContacts` has answered: rows replace the list (null as none), a failure keeps it; loading ends. */
    method ContactsFetched(response: Fetch<Contact>)
      modifies this
      ensures contacts == if response.Rows? then RowsOrEmpty(response.data) else old(contacts)
      ensures !contactsLoading
      ensures isLoading == old(isLoading) && error == old(error)
    {
      if response.Rows? {
        contacts := RowsOrEmpty(response.data);
      }
      contactsLoading := false;
    }

    /**
     * `handleSubmit(onSubmit)` up to the insert, given the schema's verdict:
     * a refused form and a signed-out user change nothing; otherwise loading
     * starts, the error is cleared and the payload is sent.
     */
    method SubmitParsed(parsed: Parsed<OpportunityFormData>, userId: Option<string>) returns (s: Submission<OpportunityInsert>)
      modifies this
      ensures parsed.Invalid? ==> s == Rejected(parsed.issues)
      ensures parsed.Valid? && userId.None? ==> s == SignedOut
      ensures parsed.Valid? && userId.Some? ==>
                s == Sent(OpportunityData(parsed.data, userId.value)) && isLoading && error == None
      ensures !s.Sent? ==> isLoading == old(isLoading) && error == old(error)
      ensures contacts == old(contacts) && contactsLoading == old(contactsLoading)
    {
      if parsed.Invalid? {
        return Rejected(parsed.issues);
      }
      if userId.None? {
        return SignedOut;
      }
      isLoading := true;
      error := None;
      s := Sent(OpportunityData(parsed.data, userId.value));
    }

    /** The page as written: the schema reads blank number fields as 0. */
    method Submit(form: OpportunityForm, userId: Option<string>) returns (s: Submission<OpportunityInsert>)
      modifies this
      ensures ParseOpportunityAsWritten(form).Invalid? ==> s == Rejected(ParseOpportunityAsWritten(form).issues)
      ensures ParseOpportunityAsWritten(form).Valid? && userId.None? ==> s == SignedOut
      ensures ParseOpportunityAsWritten(form).Valid? && userId.Some? ==>
                s == Sent(OpportunityData(ParseOpportunityAsWritten(form).data, userId.value)) && isLoading && error == None
      ensures form.value == Blank || form.priority == Blank ==> s.Rejected?
      ensures !s.Sent? ==> isLoading == old(isLoading) && error == old(error)
      ensures contacts == old(contacts) && contactsLoading == old(contactsLoading)
    {
      if form.value == Blank || form.priority == Blank {
        BlankNumbersRejectedAsWritten(form);
      }
      s := SubmitParsed(ParseOpportunityAsWritten(form), userId);
    }

    /** The page as evidently intended: blank number fields count as missing. */
    method SubmitAsIntended(form: OpportunityForm, userId: Option<string>) returns (s: Submission<OpportunityInsert>)
      modifies this
      ensures ParseOpportunity(form).Invalid? ==> s == Rejected(ParseOpportunity(form).issues)
      ensures ParseOpportunity(form).Valid? && userId.None? ==> s == SignedOut
      ensures ParseOpportunity(form).Valid? && userId.Some? ==>
                s == Sent(OpportunityData(ParseOpportunity(form).data, userId.value)) && isLoading && error == None
      ensures !s.Sent? ==> isLoading == old(isLoading) && error == old(error)
      ensures contacts == old(contacts) && contactsLoading == old(contactsLoading)
    {
      s := SubmitParsed(ParseOpportunity(form), userId);
    }

    /** The insert's outcome: navigate on success, show the caught message on failure; loading ends. */
    method Finish(failure: Option<ErrorValue>) returns (navigated: bool)
      modifies this
      ensures navigated <==> failure.None?
      ensures !isLoading
      ensures error == if failure.Some? then Some(CaughtMessage(failure.value)) else old(error)
      ensures contacts == old(contacts) && contactsLoading == old(contactsLoading)
    {
      if failure.Some? {
        error := Some(CaughtMessage(failure.value));
      }
      navigated := failure.None?;
      isLoading := false;
    }
  }
}
