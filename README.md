# Personal CRM: list pages, forms and data model in Dafny

This project models the core of a small personal CRM web application. The application keeps contacts, sales
opportunities and logged interactions for a signed-in user. The model covers:

- **the data model**: the contact, opportunity, interaction and profile records, plus the fixed lists of
  opportunity stages and interaction kinds;
- **the list pages**: the client-side search and filter of contacts, opportunities and interactions. This
  includes the pipeline totals (total value, won deals, active deals), the display helpers (display name,
  initials, avatar colour, stage badge colour, currency and date guards, tags) and the follow-up badge with
  its overdue test. The older copy of the opportunities page is modelled too, and its filter is proved equal
  to the current page's filter;
- **the forms**: the "new contact", "new opportunity", "new interaction" and sign-up forms. For each form the
  model covers:
  - its validation schema, as the list of issues it reports;
  - the insert payload built from the checked data;
  - the page's loading, error and success flags, as a class whose methods follow `handleSubmit(onSubmit)`.
  The new-opportunity page class submits with its schema as written, which refuses blank number fields
  (see Findings); the intended schema is offered beside it as a separate method.

JavaScript values are modelled as follows:

- **Missing values:** `null` and `undefined` are both `None`. `""` is a present value, so it passes `?.`.
- **Truthiness:** a string is truthy when it is present and not `""`. The operators `x || null` and
  `x || fallback` are written out.
- **Case mapping:** `toLowerCase` and `toUpperCase` act on ASCII letters.
- **Search:** `includes` is a substring scan, proved equivalent to "occurs at some index".
- **String length:** `length` counts UTF-16 code units.
- **Dates and the clock:** `new Date(s)` and the current time are parameters.
- **Format checks:** the schema library's `.email()` and `.url()` checks are parameters too.

## Model

| member | source | states |
|---|---|---|
| Js.OrNull | src/app/dashboard/contacts/new/page.tsx:80-84 | `s \|\| null`: null exactly when the string is missing or empty; otherwise the same non-empty string |
| Js.OrElse | src/app/dashboard/opportunities/page.tsx:104 | `s \|\| fallback`: the string when truthy, the fallback otherwise |
| Js.NumberOrNull | src/app/dashboard/opportunities/new/page.tsx:84-86 | `n \|\| null`: null exactly when the number is missing or 0, else unchanged |
| Js.ToLowerCase | src/app/dashboard/contacts/page.tsx:54 | same length; every character lowered |
| Js.ToUpperCase | src/app/dashboard/contacts/page.tsx:73 | same length; every character raised |
| Js.LowerOfUpper | src/app/dashboard/contacts/page.tsx:54-59 | lowering an upper-cased string gives the lowered original, so case folding of the search term is consistent |
| Js.IncludesIffOccurs | src/app/dashboard/contacts/page.tsx:56-59 | `s.includes(t)` holds exactly when `t` occurs in `s` at some index (both directions) |
| Js.Utf16Length | src/components/auth/SignupForm.tsx:15 | a string's `length` lies between its character count and twice that |
| Js.Utf16LengthBmp | src/components/auth/SignupForm.tsx:15 | for characters inside the Basic Multilingual Plane, `length` is the character count |
| Js.FirstCodeUnit | src/app/dashboard/contacts/page.tsx:87 | `charCodeAt(0)` is a 16-bit unit: the character itself in the BMP, a high surrogate otherwise |
| Seqs.Filter | src/app/dashboard/contacts/page.tsx:53 | `Array.filter`: no longer than the input; an element is kept iff it is in the input and passes; each kept element keeps its multiplicity |
| Seqs.FilterIsSubsequence | src/app/dashboard/contacts/page.tsx:53 | the filtered list keeps the input's order (it is a subsequence) |
| Seqs.SubsequenceDropHead | src/app/dashboard/contacts/page.tsx:53 | a subsequence of the tail is a subsequence of the whole list |
| Seqs.FilterKeepsAll | src/app/dashboard/opportunities/page.tsx:60-78 | when every element passes, the filter returns the list unchanged |
| Seqs.FilterAppend | src/app/dashboard/opportunities/page.tsx:60-78 | filtering distributes over concatenation |
| Seqs.FilterSingleton | src/app/dashboard/opportunities/page.tsx:60-78 | a one-element list is kept or dropped whole |
| Database.StagesAreFixed | src/types/database.ts:61-68 | six distinct stages from Lead to Lost; a stage is valid iff it is one of them |
| Database.InteractionTypesAreFixed | src/types/database.ts:70-77 | six distinct kinds from Email to Other; a kind is valid iff it is one of them |
| Database.MinimalContact | src/types/database.ts:1-19 | a contact with only its identity and timestamps set: each of the thirteen optional fields is null |
| ContactsPage.TruthyValues | src/app/dashboard/contacts/page.tsx:64-65 | `.filter(Boolean)` keeps only non-empty strings and never lengthens the list |
| ContactsPage.TruthyValuesOfPair | src/app/dashboard/contacts/page.tsx:64-65 | on a first and last name, the truthy ones in order |
| ContactsPage.DisplayName | src/app/dashboard/contacts/page.tsx:63-68 | the display name is never empty |
| ContactsPage.DisplayNameCases | src/app/dashboard/contacts/page.tsx:63-68 | both names joined by one space, or the one present name, or the email, or "Unnamed Contact" |
| ContactsPage.NamelessContactShowsPlaceholder | src/app/dashboard/contacts/page.tsx:67 | with neither a name nor an email, "Unnamed Contact" |
| ContactsPage.Initials | src/app/dashboard/contacts/page.tsx:70-74 | absent exactly when both names are missing or empty (the source throws); otherwise at least two characters and never "?" |
| ContactsPage.UpperAppend | src/app/dashboard/contacts/page.tsx:73 | upper-casing distributes over concatenation |
| ContactsPage.UpperUndefined | src/app/dashboard/contacts/page.tsx:73 | the text "undefined" upper-cases to "UNDEFINED" |
| ContactsPage.InitialsOfFullName | src/app/dashboard/contacts/page.tsx:70-74 | with both names present: two characters, the upper-cased first letters |
| ContactsPage.InitialsQuirks | src/app/dashboard/contacts/page.tsx:70-74 | fails iff both names are empty; never "?"; one missing name shows as "UNDEFINED" beside the other initial |
| ContactsPage.AvatarIndex | src/app/dashboard/contacts/page.tsx:87 | the palette index is always in range |
| ContactsPage.AvatarColor | src/app/dashboard/contacts/page.tsx:76-89 | the colour is one of the eight palette entries |
| ContactsPage.AvatarColorOnlyFirstChar | src/app/dashboard/contacts/page.tsx:87-88 | only the id's first character matters: an empty id gives red, a BMP first character gives palette[code mod 8] |
| ContactsPage.AvatarColorsCollide | src/app/dashboard/contacts/page.tsx:87-88 | ids starting with 'a' and 'i' share bg-blue-500 |
| ContactsPage.FilteredContacts | src/app/dashboard/contacts/page.tsx:53-61 | the contacts matching the search, in fetched order, each with its multiplicity |
| ContactsPage.EmptySearchNeedsAField | src/app/dashboard/contacts/page.tsx:54-60 | an empty search shows exactly the contacts with at least one of first name, last name, email, company present |
| ContactsPage.FieldlessContactHidden | src/app/dashboard/contacts/page.tsx:55-60 | a contact with none of the four fields is never listed, whatever the search |
| ContactsPage.BareContactHiddenAndUnnamed | src/app/dashboard/contacts/page.tsx:53-68 | a contact with every optional field null never appears in the list and is named "Unnamed Contact" |
| ContactsPage.SearchIgnoresCase | src/app/dashboard/contacts/page.tsx:54-59 | searching the upper-cased term lists the same contacts |
| OpportunitiesPage.FilteredOpportunities | src/app/dashboard/opportunities/page.tsx:60-78 | the opportunities passing search and stage filter, in fetched order, with multiplicities |
| OpportunitiesPage.EmptySearchIsStageFilter | src/app/dashboard/opportunities/page.tsx:61-62 | with no search text only the stage filter decides ("all" or an exact stage) |
| OpportunitiesPage.SearchNeedsTextMatch | src/app/dashboard/opportunities/page.tsx:63-72 | with a search, the lowered term must occur in the name or in the contact's first name, last name or company |
| OpportunitiesPage.NoFilterShowsAll | src/app/dashboard/opportunities/page.tsx:61-77 | no search and stage "all" lists everything, unchanged |
| OpportunitiesPage.SumValuesPrepend | src/app/dashboard/opportunities/page.tsx:128-133 | the sum of values, adding one opportunity in front |
| OpportunitiesPage.ReduceIsSum | src/app/dashboard/opportunities/page.tsx:129-132 | the left fold `reduce((sum, opp) => sum + (opp.value \|\| 0), acc)` equals acc plus the sum |
| OpportunitiesPage.TotalValue | src/app/dashboard/opportunities/page.tsx:128-133 | the total is the sum of the visible values, a missing value counting 0 |
| OpportunitiesPage.TotalValueAppend | src/app/dashboard/opportunities/page.tsx:128-133 | the total of two lists is the sum of their totals |
| OpportunitiesPage.TotalValueNonNegative | src/app/dashboard/opportunities/page.tsx:128-133 | with no negative value, the total is not negative |
| OpportunitiesPage.WonCount | src/app/dashboard/opportunities/page.tsx:135-137 | won deals never outnumber the visible ones |
| OpportunitiesPage.ActiveCount | src/app/dashboard/opportunities/page.tsx:217-219 | active deals (neither Won nor Lost) never outnumber the visible ones |
| OpportunitiesPage.StageCountsPartition | src/app/dashboard/opportunities/page.tsx:135-137 | won + active + lost is exactly the number of visible deals |
| OpportunitiesPage.WonPlusActiveAtMostVisible | src/app/dashboard/opportunities/page.tsx:217-219 | won + active is at most the visible count |
| OpportunitiesPage.FormatCurrency | src/app/dashboard/opportunities/page.tsx:100-109 | nothing for a missing or zero value; otherwise that amount, in the given currency or USD |
| OpportunitiesPage.FormatDate | src/app/dashboard/opportunities/page.tsx:111-118 | nothing for a missing or empty date; otherwise that date |
| OpportunitiesPage.TotalValueCardFallback | src/app/dashboard/opportunities/page.tsx:180 | the card shows "$0" iff the total is 0, else the total in USD |
| OpportunitiesPage.StageColorTable | src/app/dashboard/opportunities/page.tsx:80-97 | each of the six stages gets its entry of the badge table (gray, blue, amber, orange, green, red, `-700` text) |
| OpportunitiesPage.StageClassesDistinct | src/app/dashboard/opportunities/page.tsx:80-97 | no two stages share a badge class |
| OpportunitiesPage.UnknownStageLooksLikeLead | src/app/dashboard/opportunities/page.tsx:94-95 | any other stage string falls to the default, the Lead colours |
| OpportunitiesPage.ContactDisplayName | src/app/dashboard/opportunities/page.tsx:120-126 | "Unknown Contact" without a contact, else the contact's display name |
| OpportunitiesPage.Tags | src/app/dashboard/opportunities/page.tsx:417-428 | no tags in list view; "High Priority" iff priority ≥ 4, "High Value" iff value ≥ 10000, in grid view |
| OpportunitiesPage.ExamplePipeline | src/app/dashboard/opportunities/page.tsx:128-137 | a won 5000 deal and a valueless lead: total 5000, one won, one active |
| OpportunitiesPage.BetaDealLacksAcme | src/app/dashboard/opportunities/page.tsx:63 | "beta deal" does not include "acme" |
| OpportunitiesPage.AcmeDealFound | src/app/dashboard/opportunities/page.tsx:63 | a term lowering to "acme" matches "Acme Deal" by name |
| OpportunitiesPage.BetaDealMissed | src/app/dashboard/opportunities/page.tsx:61-72 | such a term misses "Beta Deal", which has no contact |
| OpportunitiesPage.ExampleSearch | src/app/dashboard/opportunities/page.tsx:60-78 | any term lowering to "acme" finds only the Acme deal |
| OpportunitiesPage.ExampleSearchUpperCase | src/app/dashboard/opportunities/page.tsx:60-78 | "ACME" finds only the Acme deal |
| InteractionsPage.FilteredInteractions | src/app/dashboard/interactions/page.tsx:47-57 | the interactions passing search and type filter, in fetched order, with multiplicities |
| InteractionsPage.EmptySearchIsTypeFilter | src/app/dashboard/interactions/page.tsx:48-54 | with no search text only the type filter decides |
| InteractionsPage.SearchNeedsTextMatch | src/app/dashboard/interactions/page.tsx:48-52 | with a search, the lowered term must occur in the summary or the contact's first name, last name or company |
| InteractionsPage.NoContactSearchesSummaryOnly | src/app/dashboard/interactions/page.tsx:49-52 | without an embedded contact only the summary can match |
| InteractionsPage.ContactDisplayName | src/app/dashboard/interactions/page.tsx:59-63 | "Unknown Contact" without a contact, else the display name |
| InteractionsPage.FormatDate | src/app/dashboard/interactions/page.tsx:69-72 | nothing for a missing or empty date; otherwise that date |
| InteractionsPage.IsFollowUpOverdue | src/app/dashboard/interactions/page.tsx:74-77 | overdue iff the date is present, readable and before now; an unreadable date is never overdue |
| InteractionsPage.OverdueExample | src/app/dashboard/interactions/page.tsx:74-77 | a day ago is overdue; now and a day ahead are not |
| InteractionsPage.FollowUpBadge | src/app/dashboard/interactions/page.tsx:169-176 | a badge iff a follow-up is needed and dated; overdue styling iff that date is overdue; it shows that date |
| LegacyOpportunitiesPage.FilteredOpportunities | personal-crm/src/app/dashboard/opportunities/page.tsx:46-56 | the legacy filter, in fetched order, with multiplicities |
| LegacyOpportunitiesPage.SameAsCurrentPage | personal-crm/src/app/dashboard/opportunities/page.tsx:46-56 | the legacy filter lists exactly what the current page lists, for all inputs |
| LegacyOpportunitiesPage.StageFilterExact | personal-crm/src/app/dashboard/opportunities/page.tsx:53 | with no search, "all" or the exact stage |
| LegacyOpportunitiesPage.StageColorTable | personal-crm/src/app/dashboard/opportunities/page.tsx:58-68 | each stage gets its entry of the legacy table (Proposal in yellow, `-800` text) |
| LegacyOpportunitiesPage.StageClassesDistinct | personal-crm/src/app/dashboard/opportunities/page.tsx:58-68 | no two stages share a badge class |
| LegacyOpportunitiesPage.UnknownStageLooksLikeLead | personal-crm/src/app/dashboard/opportunities/page.tsx:66 | any other stage string falls to the default, the Lead colours |
| LegacyOpportunitiesPage.StageColorsDifferFromCurrentPage | personal-crm/src/app/dashboard/opportunities/page.tsx:58-68 | no stage gets the same classes on both copies of the page |
| LegacyOpportunitiesPage.FormatCurrency | personal-crm/src/app/dashboard/opportunities/page.tsx:70-77 | nothing for a missing or zero value; else that amount in the currency or USD |
| LegacyOpportunitiesPage.FormatDate | personal-crm/src/app/dashboard/opportunities/page.tsx:79-82 | nothing for a missing or empty date |
| LegacyOpportunitiesPage.ContactDisplayName | personal-crm/src/app/dashboard/opportunities/page.tsx:84-88 | "Unknown Contact" without a contact, else a non-empty display name |
| Validation.Check | src/app/dashboard/contacts/new/page.tsx:29-52 | a check reports its issue iff it fails |
| Validation.CaughtMessage | src/app/dashboard/contacts/new/page.tsx:93 | an `Error`'s message, else "An error occurred" |
| Validation.MessageProperty | src/app/dashboard/interactions/new/page.tsx:123-124 | `error.message` of whatever was thrown, possibly absent |
| Validation.RowsOrEmpty | src/app/dashboard/opportunities/new/page.tsx:66 | `data \|\| []` |
| NewContactPage.ParseContact | src/app/dashboard/contacts/new/page.tsx:29-52 | accepted iff email and each link are missing, empty or well-formed and one of first name, last name, email is truthy; accepted data is the input |
| NewContactPage.NoIdentityRejected | src/app/dashboard/contacts/new/page.tsx:49-51 | with no first name, last name or email: refused, with the fixed message on `first_name` |
| NewContactPage.EmptyLinksAccepted | src/app/dashboard/contacts/new/page.tsx:33-45 | empty email and links never raise an issue, whatever the format checks say |
| NewContactPage.ContactData | src/app/dashboard/contacts/new/page.tsx:77-85 | owner stamped; empty email, links and birthday become null, present ones are kept; every other field copied |
| NewContactPage.ContactDataIdempotent | src/app/dashboard/contacts/new/page.tsx:77-85 | rebuilding a payload from a payload gives the same payload |
| NewContactPage.ContactDataHasNoEmptyLinks | src/app/dashboard/contacts/new/page.tsx:80-84 | no normalised column ever holds "" |
| NewContactPage.NewContactForm.constructor | src/app/dashboard/contacts/new/page.tsx:57-58 | not loading, no error |
| NewContactPage.NewContactForm.Submit | src/app/dashboard/contacts/new/page.tsx:70-79 | refused forms and signed-out users change nothing; otherwise loading, error cleared, payload sent |
| NewContactPage.NewContactForm.Finish | src/app/dashboard/contacts/new/page.tsx:87-96 | navigate iff the insert succeeded; a failure shows the caught message; loading ends |
| NewOpportunityPage.CoerceAsWritten | src/app/dashboard/opportunities/new/page.tsx:23-27 | `z.coerce.number().optional()`: only a missing field stays undefined; blank text becomes 0 |
| NewOpportunityPage.Coerce | src/app/dashboard/opportunities/new/page.tsx:23-27 | corrected coercion; see Findings |
| NewOpportunityPage.ValueIssues | src/app/dashboard/opportunities/new/page.tsx:23 | no issue iff the value is missing or positive |
| NewOpportunityPage.PriorityIssues | src/app/dashboard/opportunities/new/page.tsx:27 | no issue iff the priority is missing or between 1 and 5 |
| NewOpportunityPage.ParseWith | src/app/dashboard/opportunities/new/page.tsx:19-28 | accepted iff name and contact are non-empty, value and priority acceptable and the stage known; the data carries the coerced numbers |
| NewOpportunityPage.ParseOpportunityAsWritten | src/app/dashboard/opportunities/new/page.tsx:19-28 | as written: an accepted form has no value (or priority) only when the field was missing |
| NewOpportunityPage.ParseOpportunity | src/app/dashboard/opportunities/new/page.tsx:19-28 | as intended: accepted iff the fields are valid with blanks counting as missing |
| NewOpportunityPage.BlankNumbersRejectedAsWritten | src/app/dashboard/opportunities/new/page.tsx:23-27 | as written, a blank value is refused with "Value must be positive" and a blank priority with the minimum-1 issue |
| NewOpportunityPage.UntouchedForm | src/app/dashboard/opportunities/new/page.tsx:46-49 | defaults: stage Lead, currency USD, number fields blank |
| NewOpportunityPage.UntouchedFormRejectedAsWritten | src/app/dashboard/opportunities/new/page.tsx:19-49 | as written, a named untouched form is refused with exactly the two number issues |
| NewOpportunityPage.UntouchedFormAccepted | src/app/dashboard/opportunities/new/page.tsx:19-49 | as intended, it is accepted with no value and no priority |
| NewOpportunityPage.CorrectionOnlyAffectsBlanks | src/app/dashboard/opportunities/new/page.tsx:23-27 | without blank number fields both parses agree |
| NewOpportunityPage.CorrectionAcceptsMore | src/app/dashboard/opportunities/new/page.tsx:23-27 | everything accepted as written is accepted as intended; every extra acceptance has a blank field |
| NewOpportunityPage.OpportunityData | src/app/dashboard/opportunities/new/page.tsx:81-87 | owner stamped; value and priority null iff missing or 0; close date null iff empty; the rest copied |
| NewOpportunityPage.AcceptedPayload | src/app/dashboard/opportunities/new/page.tsx:81-87 | an accepted form's payload keeps each entered positive value and 1–5 priority, and names a known stage |
| NewOpportunityPage.ContactOptionLabel | src/app/dashboard/opportunities/new/page.tsx:103-107 | the display name, followed by " (company)" iff the company is truthy |
| NewOpportunityPage.LabelsSeparateCompanies | src/app/dashboard/opportunities/new/page.tsx:103-107 | same-named contacts at different companies get different, non-empty labels |
| NewOpportunityPage.NewOpportunityForm.constructor | src/app/dashboard/opportunities/new/page.tsx:33-36 | no contacts, contacts loading, not submitting, no error |
| NewOpportunityPage.NewOpportunityForm.ContactsFetched | src/app/dashboard/opportunities/new/page.tsx:58-72 | rows replace the list (null as none), a failure keeps it; loading ends |
| NewOpportunityPage.NewOpportunityForm.SubmitParsed | src/app/dashboard/opportunities/new/page.tsx:74-87 | given the schema's verdict: refused forms and signed-out users change nothing; otherwise loading, error cleared, payload sent |
| NewOpportunityPage.NewOpportunityForm.Submit | src/app/dashboard/opportunities/new/page.tsx:74-87 | the page as written, with the written schema: a form with a blank value or priority is always refused; otherwise as above |
| NewOpportunityPage.NewOpportunityForm.SubmitAsIntended | src/app/dashboard/opportunities/new/page.tsx:74-87 | the same submit with the intended schema of the Findings row, where blank numbers count as missing |
| NewOpportunityPage.NewOpportunityForm.Finish | src/app/dashboard/opportunities/new/page.tsx:89-100 | navigate iff the insert succeeded; a failure shows the caught message; loading ends |
| NewInteractionPage.ParseInteraction | src/app/dashboard/interactions/new/page.tsx:19-35 | accepted iff contact, date and summary are non-empty, the kind is known, and a needed follow-up has a date |
| NewInteractionPage.FieldsAbortOnlyOnType | src/app/dashboard/interactions/new/page.tsx:22 | only an unknown kind stops the object (and so skips the follow-up rule) |
| NewInteractionPage.MissingFollowUpDateReported | src/app/dashboard/interactions/new/page.tsx:27-35 | a needed but undated follow-up is reported on `follow_up_date` after the field issues, unless the kind is unknown |
| NewInteractionPage.FollowUpDateIrrelevantWhenNotNeeded | src/app/dashboard/interactions/new/page.tsx:27-31 | without a follow-up its date never affects the issues |
| NewInteractionPage.DefaultDate | src/app/dashboard/interactions/new/page.tsx:59 | the first 16 characters of the ISO timestamp (a prefix) |
| NewInteractionPage.UntouchedForm | src/app/dashboard/interactions/new/page.tsx:57-61 | defaults: kind Email, no follow-up, today's date; the unrendered opportunity and follow-up date inputs are undefined |
| NewInteractionPage.UntouchedFormNeedsContactAndSummary | src/app/dashboard/interactions/new/page.tsx:19-61 | an untouched form lacks exactly a contact and a summary |
| NewInteractionPage.OpportunitiesForContact | src/app/dashboard/interactions/new/page.tsx:75-77 | the fetched opportunities of that contact, in order, with multiplicities |
| NewInteractionPage.PickerIgnoresOtherContacts | src/app/dashboard/interactions/new/page.tsx:75-77 | appending other contacts' opportunities leaves a contact's picker unchanged |
| NewInteractionPage.NoneForContact | src/app/dashboard/interactions/new/page.tsx:75-77 | a list with none of the contact's opportunities filters to nothing |
| NewInteractionPage.ContactOptionLabel | src/app/dashboard/interactions/new/page.tsx:130-134 | the same label as the opportunity form's picker |
| NewInteractionPage.InteractionData | src/app/dashboard/interactions/new/page.tsx:109-114 | owner stamped; opportunity null iff empty; follow-up date kept iff a follow-up is needed; the rest copied |
| NewInteractionPage.AcceptedPayloadFollowUp | src/app/dashboard/interactions/new/page.tsx:109-114 | an accepted form stores a non-empty follow-up date exactly when one is needed |
| NewInteractionPage.NewInteractionForm.constructor | src/app/dashboard/interactions/new/page.tsx:40-45 | empty lists, data loading, not submitting, no error |
| NewInteractionPage.NewInteractionForm.ContactEffect | src/app/dashboard/interactions/new/page.tsx:73-81 | a chosen contact's opportunities are offered and the chosen opportunity cleared; with no contact nothing changes |
| NewInteractionPage.NewInteractionForm.DataFetched | src/app/dashboard/interactions/new/page.tsx:83-100 | both lists replaced only if both queries answered; loading ends |
| NewInteractionPage.NewInteractionForm.Submit | src/app/dashboard/interactions/new/page.tsx:102-114 | for the form's current values (its opportunity is the field the contact effect clears): refused forms and signed-out users change nothing; otherwise loading, error cleared, payload sent |
| NewInteractionPage.NewInteractionForm.Finish | src/app/dashboard/interactions/new/page.tsx:116-127 | navigate iff the insert succeeded; a failure shows `error.message`, possibly nothing; loading ends |
| Signup.ParseSignup | src/components/auth/SignupForm.tsx:13-20 | accepted iff the email is well-formed, the password has at least 6 UTF-16 units and the confirmation matches |
| Signup.MismatchAlwaysReported | src/components/auth/SignupForm.tsx:17-20 | a mismatch is reported last, on `confirmPassword`, whatever else fails |
| Signup.AllIssuesListed | src/components/auth/SignupForm.tsx:13-20 | all three issues are reported together, in key order |
| Signup.PasswordLengthBoundary | src/components/auth/SignupForm.tsx:15 | "secret" is long enough, "short" is not |
| Signup.AstralPasswordCountsDouble | src/components/auth/SignupForm.tsx:15 | three emoji count as six characters |
| Signup.SignupState.constructor | src/components/auth/SignupForm.tsx:29-31 | not loading, no error, no success |
| Signup.SignupState.Submit | src/components/auth/SignupForm.tsx:42-46 | a refused form changes nothing; an accepted one starts loading, clears the error and hands over email and password |
| Signup.SignupState.Finish | src/components/auth/SignupForm.tsx:46-55 | a failure shows the caught message and leaves success as it was; otherwise success; loading ends |

## Left out

- Network and storage: the Supabase queries and inserts themselves, authentication, the router and the
  `useEffect` scheduling are not modelled. Their outcomes are method parameters: the fetched rows, the thrown
  value, the signed-in user's id.
- The server's sort order is taken as the order of the fetched list: newest `created_at` first on the contacts
  and opportunities pages, latest `date_of_interaction` first on the interactions page, and `order('first_name')`
  or `order('name')` in the form pages' pickers.
- Locale formatting (`Intl.NumberFormat`, `toLocaleDateString`, `toLocaleString`) is out of scope.
  `FormatCurrency` returns the amount and currency it would format, and `FormatDate` returns the date string
  it would format.
- Amounts are integers. Fractional values of the number input and floating-point addition in the total are
  not modelled.
- Case mapping beyond ASCII letters (Unicode `toLowerCase`, `toUpperCase`) is not modelled.
- ContactsPage.Initials: takes the first character rather than the first UTF-16 code unit, so a name starting
  with an astral character gets that whole character as its initial.
- The schema library's `.email()` and `.url()` checks are function parameters (`isEmail`, `isUrl`), because
  their regular expressions are outside this model. Only their results matter here.
- A required text field that arrives as `undefined` (the library's "Required" issue) is not modelled. Every
  such field is a registered input, which always delivers a string.
- The interaction record's `type` field is called `kind`, because `type` is a Dafny keyword.
- View toggles, empty-state texts, loading spinners and other markup are not modelled. Neither are the
  settings page, the landing page, the sidebars and the detail or edit pages.
- Signup.SignupState.Finish: assumes `signUp` always answers. The handler has no `try`/`finally`, so a
  rejected promise would leave `isLoading` set; that path is not modelled.
- Contact ids are non-optional strings in the record type, so the `contact.id?.` guard of the avatar colour
  only covers the empty id.

## Findings

| source | as written | input that shows it | evidently intended | confidence | as-written member | corrected member |
|---|---|---|---|---|---|---|
| src/app/dashboard/opportunities/new/page.tsx:23-27 | `z.coerce.number()...optional()` receives the empty text of a blank number input and of the "Select priority" option, and `Number("")` is 0 | a form with a name, a contact, stage Lead, and value and priority left blank: refused with "Value must be positive" and the minimum-1 priority issue | a blank value or priority counts as missing, as `.optional()` and the payload's `\|\| null` suggest | medium (not executed; depends on the form library handing over "" for blank fields) | NewOpportunityPage.ParseOpportunityAsWritten, NewOpportunityPage.UntouchedFormRejectedAsWritten, NewOpportunityPage.NewOpportunityForm.Submit | NewOpportunityPage.ParseOpportunity, NewOpportunityPage.UntouchedFormAccepted, NewOpportunityPage.NewOpportunityForm.SubmitAsIntended |
