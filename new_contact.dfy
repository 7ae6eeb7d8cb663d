/**
 * The "Add New Contact" form: its schema (formats of the optional links and
 * the rule that some identity field is filled in), the insert payload built
 * from the checked data, and the loading/error flags around the insert.
 */
module NewContactPage {
  import opened Js
  import opened Validation

  /** The form's fields, as the schema sees them. */
  datatype ContactFormData = ContactFormData(
    first_name: Option<string>,
    last_name: Option<string>,
    email: Option<string>,
    phone: Option<string>,
    company: Option<string>,
    role_title: Option<string>,
    notes: Option<string>,
    source: Option<string>,
    linkedin_url: Option<string>,
    twitter_url: Option<string>,
    website: Option<string>,
    address: Option<string>,
    birthday: Option<string>)

  const IdentityRequired := "At least one of first name, last name, or email is required"

  /**
   * `z.string().<format>().optional().or(z.literal(""))`: missing, the empty
   * string, or text passing the format check.
   */
  predicate OptionalFormat(field: Option<string>, format: string -> bool)
  {
    field.None? || field.value == "" || format(field.value)
  }

  /** The `.refine`: `first_name || last_name || email`. */
  predicate HasIdentity(d: ContactFormData)
  {
    Truthy(d.first_name) || Truthy(d.last_name) || Truthy(d.email)
  }

  /**
   * The issues `contactSchema` reports, field checks first, then the
   * refinement (no field of this schema can stop the object). `isEmail` and
   * `isUrl` stand for the library's `.email()` and `.url()` checks.
   */
  function ContactIssues(d: ContactFormData, isEmail: string -> bool, isUrl: string -> bool): seq<Issue>
  {
    Check(OptionalFormat(d.email, isEmail), Issue("email", Custom("Invalid email address")))
    + Check(OptionalFormat(d.linkedin_url, isUrl), Issue("linkedin_url", Custom("Invalid URL")))
    + Check(OptionalFormat(d.twitter_url, isUrl), Issue("twitter_url", Custom("Invalid URL")))
    + Check(OptionalFormat(d.website, isUrl), Issue("website", Custom("Invalid URL")))
    + Check(HasIdentity(d), Issue("first_name", Custom(IdentityRequired)))
  }

  /** `contactSchema.safeParse`. */
  function ParseContact(d: ContactFormData, isEmail: string -> bool, isUrl: string -> bool): (r: Parsed<ContactFormData>)
    ensures r.Valid? <==> OptionalFormat(d.email, isEmail) && OptionalFormat(d.linkedin_url, isUrl)
                          && OptionalFormat(d.twitter_url, isUrl) && OptionalFormat(d.website, isUrl)
                          && HasIdentity(d)
    ensures r.Valid? ==> r.data == d
    ensures r.Invalid? ==> r.issues != []
  {
    var issues := ContactIssues(d, isEmail, isUrl);
    if issues == [] then Valid(d) else Invalid(issues)
  }

  /** With no first name, last name or email, the form is refused, on the `first_name` path, with the fixed message. */
  lemma NoIdentityRejected(d: ContactFormData, isEmail: string -> bool, isUrl: string -> bool)
    requires !Truthy(d.first_name) && !Truthy(d.last_name) && !Truthy(d.email)
    ensures ParseContact(d, isEmail, isUrl).Invalid?
    ensures Issue("first_name", Custom(IdentityRequired)) in ContactIssues(d, isEmail, isUrl)
  {
  }

  /** An empty email, LinkedIn, Twitter or website entry never raises an issue, whatever the format checks say. */
  lemma EmptyLinksAccepted(d: ContactFormData, isEmail: string -> bool, isUrl: string -> bool)
    requires d.email == Some("") && d.linkedin_url == Some("") && d.twitter_url == Some("") && d.website == Some("")
    ensures ParseContact(d, isEmail, isUrl).Valid? <==> Truthy(d.first_name) || Truthy(d.last_name)
  {
  }

  // ---------------------------------------------------------------------
  // The insert payload

  /** The row handed to the insert: the form's fields plus the owner. */
  datatype ContactInsert = ContactInsert(
    user_id: string,
    first_name: Option<string>,
    last_name: Option<string>,
    email: Option<string>,
    phone: Option<string>,
    company: Option<string>,
    role_title: Option<string>,
    notes: Option<string>,
    source: Option<string>,
    linkedin_url: Option<string>,
    twitter_url: Option<string>,
    website: Option<string>,
    address: Option<string>,
    birthday: Option<string>)

  /** `contactData`: `{...data, user_id, email: data.email || null, ...}`. */
  function ContactData(d: ContactFormData, userId: string): (p: ContactInsert)
    // the owner is stamped
    ensures p.user_id == userId
    // the five nullable columns: empty becomes null, anything else is kept
    ensures p.email.None? <==> !Truthy(d.email)
    ensures p.linkedin_url.None? <==> !Truthy(d.linkedin_url)
    ensures p.twitter_url.None? <==> !Truthy(d.twitter_url)
    ensures p.website.None? <==> !Truthy(d.website)
    ensures p.birthday.None? <==> !Truthy(d.birthday)
    ensures p.email.Some? ==> p.email == d.email
    ensures p.linkedin_url.Some? ==> p.linkedin_url == d.linkedin_url
    ensures p.twitter_url.Some? ==> p.twitter_url == d.twitter_url
    ensures p.website.Some? ==> p.website == d.website
    ensures p.birthday.Some? ==> p.birthday == d.birthday
    // everything else is copied
    ensures p.first_name == d.first_name && p.last_name == d.last_name && p.phone == d.phone
    ensures p.company == d.company && p.role_title == d.role_title && p.notes == d.notes
    ensures p.source == d.source && p.address == d.address
  {
    ContactInsert(userId, d.first_name, d.last_name, OrNull(d.email), d.phone, d.company, d.role_title,
                  d.notes, d.source, OrNull(d.linkedin_url), OrNull(d.twitter_url), OrNull(d.website),
                  d.address, OrNull(d.birthday))
  }

  /** The form data a payload was read back as. */
  function FormOf(p: ContactInsert): ContactFormData
  {
    ContactFormData(p.first_name, p.last_name, p.email, p.phone, p.company, p.role_title, p.notes,
                    p.source, p.linkedin_url, p.twitter_url, p.website, p.address, p.birthday)
  }

  /** Normalising twice changes nothing: a payload read back as form data yields the same payload. */
  lemma ContactDataIdempotent(d: ContactFormData, userId: string)
    ensures ContactData(FormOf(ContactData(d, userId)), userId) == ContactData(d, userId)
  {
  }

  /** The payload never stores "" in a column that `|| null` normalises. */
  lemma ContactDataHasNoEmptyLinks(d: ContactFormData, userId: string)
    ensures var p := ContactData(d, userId);
            p.email != Some("") && p.linkedin_url != Some("") && p.twitter_url != Some("")
            && p.website != Some("") && p.birthday != Some("")
  {
  }

  // ---------------------------------------------------------------------
  // Submitting

  /** The page's `isLoading` and `error` state around `onSubmit`. */
  class NewContactForm {
    var isLoading: bool
    var error: Option<string>

    constructor ()
      ensures !isLoading && error == None
    {
      isLoading := false;
      error := None;
    }

    /**
     * `handleSubmit(onSubmit)` up to the insert: a form the schema refuses
     * never reaches the handler; without a signed-in user the handler returns
     * at once; otherwise the form starts loading, the error is cleared and the
     * payload goes to the insert.
     */
    method Submit(data: ContactFormData, isEmail: string -> bool, isUrl: string -> bool, userId: Option<string>)
      returns (s: Submission<ContactInsert>)
      modifies this
      ensures ParseContact(data, isEmail, isUrl).Invalid? ==>
                s == Rejected(ParseContact(data, isEmail, isUrl).issues)
      ensures ParseContact(data, isEmail, isUrl).Valid? && userId.None? ==> s == SignedOut
      ensures ParseContact(data, isEmail, isUrl).Valid? && userId.Some? ==>
                s == Sent(ContactData(data, userId.value)) && isLoading && error == None
      ensures !s.Sent? ==> isLoading == old(isLoading) && error == old(error)
    {
      var parsed := ParseContact(data, isEmail, isUrl);
      if parsed.Invalid? {
        return Rejected(parsed.issues);
      }
      if userId.None? {
        return SignedOut;
      }
      isLoading := true;
      error := None;
      s := Sent(ContactData(parsed.data, userId.value));
    }

    /**
     * The insert's outcome: what it threw, if anything. On success the page
     * moves on to the contact list; on failure it shows the caught message.
     * Either way it stops loading.
     */
    method Finish(failure: Option<ErrorValue>) returns (navigated: bool)
      modifies this
      ensures navigated <==> failure.None?
      ensures !isLoading
      ensures error == if failure.Some? then Some(CaughtMessage(failure.value)) else old(error)
    {
      if failure.Some? {
        error := Some(CaughtMessage(failure.value));
      }
      navigated := failure.None?;
      isLoading := false;
    }
  }
}
