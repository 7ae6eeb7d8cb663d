/**
 * The contacts list page: its search filter and its per-card display helpers
 * (display name, initials, avatar colour). The display-name chain defined here
 * is the one every other page builds on.
 */
module ContactsPage {
  import opened Js
  import Seqs
  import opened Database

  // ---------------------------------------------------------------------
  // Display name: `[first_name, last_name].filter(Boolean).join(" ") || email || "Unnamed Contact"`

  /** `xs.filter(Boolean)` on optional strings, keeping the string values. */
  function TruthyValues(xs: seq<Option<string>>): (r: seq<string>)
    ensures |r| <= |xs|
    ensures forall k :: 0 <= k < |r| ==> r[k] != ""
  {
    if xs == [] then []
    else if Truthy(xs[0]) then [xs[0].value] + TruthyValues(xs[1..])
    else TruthyValues(xs[1..])
  }

  /** `parts.join(sep)`. */
  function Join(parts: seq<string>, sep: string): string
  {
    if parts == [] then ""
    else if |parts| == 1 then parts[0]
    else parts[0] + sep + Join(parts[1..], sep)
  }

  /** The joined first and last name, before any fallback. */
  function JoinedName(c: Contact): string
  {
    Join(TruthyValues([c.first_name, c.last_name]), " ")
  }

  const UnnamedContact := "Unnamed Contact"

  /** `getContactDisplayName` of the contacts page. */
  function DisplayName(c: Contact): (r: string)
    ensures r != ""
  {
    var name := JoinedName(c);
    if name != "" then name else OrElse(c.email, UnnamedContact)
  }

  /**
   * The display name case by case: both names joined by one space, or the one
   * present name, or the email, or the placeholder; never empty.
   */
  lemma DisplayNameCases(c: Contact)
    ensures Truthy(c.first_name) && Truthy(c.last_name) ==>
              DisplayName(c) == c.first_name.value + " " + c.last_name.value
    ensures Truthy(c.first_name) && !Truthy(c.last_name) ==> DisplayName(c) == c.first_name.value
    ensures !Truthy(c.first_name) && Truthy(c.last_name) ==> DisplayName(c) == c.last_name.value
    ensures !Truthy(c.first_name) && !Truthy(c.last_name) ==>
              DisplayName(c) == if Truthy(c.email) then c.email.value else UnnamedContact
  {
    TruthyValuesOfPair(c.first_name, c.last_name);
    if Truthy(c.first_name) && Truthy(c.last_name) {
      var parts := [c.first_name.value, c.last_name.value];
      assert parts[1..] == [c.last_name.value];
      assert Join(parts, " ") == c.first_name.value + " " + c.last_name.value;
    }
  }

  lemma TruthyValuesOfPair(a: Option<string>, b: Option<string>)
    ensures TruthyValues([a, b]) == (if Truthy(a) then [a.value] else []) + (if Truthy(b) then [b.value] else [])
  {
    assert [a, b][1..] == [b];
    assert [b][1..] == [];
  }

  /** A contact with neither a name nor an email shows the placeholder, never whitespace. */
  lemma NamelessContactShowsPlaceholder(c: Contact)
    requires !Truthy(c.first_name) && !Truthy(c.last_name) && !Truthy(c.email)
    ensures DisplayName(c) == "Unnamed Contact"
  {
    DisplayNameCases(c);
  }

  // ---------------------------------------------------------------------
  // Initials: `((first_name || "")[0] + (last_name || "")[0]).toUpperCase() || "?"`

  /**
   * `name[0]` converted to a string by `+`: the first character, or the text
   * "undefined" when the name is empty (indexing past the end yields `undefined`).
   */
  function FirstOrUndefined(name: string): string
  {
    if name == "" then "undefined" else [name[0]]
  }

  /**
   * `getContactInitials`. `None` stands for the TypeError the source raises when
   * both names are empty: `undefined + undefined` is `NaN`, which has no
   * `toUpperCase`. With exactly one name empty the result spells out
   * "UNDEFINED"; the `|| "?"` fallback can never apply, because the
   * concatenation is never empty.
   */
  function Initials(c: Contact): (r: Option<string>)
    ensures r.None? <==> !Truthy(c.first_name) && !Truthy(c.last_name)
    ensures r.Some? ==> r.value != "?" && |r.value| >= 2
  {
    var firstName := OrElse(c.first_name, "");
    var lastName := OrElse(c.last_name, "");
    if firstName == "" && lastName == "" then None
    else
      var s := ToUpperCase(FirstOrUndefined(firstName) + FirstOrUndefined(lastName));
      Some(if s != "" then s else "?")
  }

  /** Upper-casing works character by character, so it distributes over concatenation. */
  lemma UpperAppend(a: string, b: string)
    ensures ToUpperCase(a + b) == ToUpperCase(a) + ToUpperCase(b)
  {
    var l, r := ToUpperCase(a + b), ToUpperCase(a) + ToUpperCase(b);
    forall i | 0 <= i < |a + b| ensures l[i] == r[i] {
      if i < |a| { assert (a + b)[i] == a[i]; } else { assert (a + b)[i] == b[i - |a|]; }
    }
  }

  lemma UpperUndefined()
    ensures ToUpperCase("undefined") == "UNDEFINED"
  {
    var u := ToUpperCase("undefined");
    assert u[0] == 'U' && u[1] == 'N' && u[2] == 'D' && u[3] == 'E' && u[4] == 'F';
    assert u[5] == 'I' && u[6] == 'N' && u[7] == 'E' && u[8] == 'D';
  }

  /** With both names present, the initials are the two upper-cased first letters. */
  lemma InitialsOfFullName(c: Contact)
    requires Truthy(c.first_name) && Truthy(c.last_name)
    ensures Initials(c) == Some([UpperChar(c.first_name.value[0]), UpperChar(c.last_name.value[0])])
    ensures |Initials(c).value| == 2
  {
    var f, l := c.first_name.value, c.last_name.value;
    var u := ToUpperCase([f[0]] + [l[0]]);
    assert u == [u[0], u[1]];
  }

  /** The helper throws exactly when both names are missing or empty, and never yields "?". */
  lemma InitialsQuirks(c: Contact)
    ensures Initials(c).None? <==> !Truthy(c.first_name) && !Truthy(c.last_name)
    ensures Initials(c) != Some("?")
    ensures Truthy(c.first_name) && !Truthy(c.last_name) ==>
              Initials(c) == Some([UpperChar(c.first_name.value[0])] + "UNDEFINED")
    ensures !Truthy(c.first_name) && Truthy(c.last_name) ==>
              Initials(c) == Some("UNDEFINED" + [UpperChar(c.last_name.value[0])])
  {
    UpperUndefined();
    if Truthy(c.first_name) && !Truthy(c.last_name) {
      var f := [c.first_name.value[0]];
      UpperAppend(f, "undefined");
      assert ToUpperCase(f) == [UpperChar(f[0])];
    } else if !Truthy(c.first_name) && Truthy(c.last_name) {
      var l := [c.last_name.value[0]];
      UpperAppend("undefined", l);
      assert ToUpperCase(l) == [UpperChar(l[0])];
    } else if Truthy(c.first_name) {
      InitialsOfFullName(c);
    }
  }

  // ---------------------------------------------------------------------
  // Avatar colour: `colors[(id?.charCodeAt(0) || 0) % colors.length]`

  const AvatarPalette: seq<string> := ["bg-red-500", "bg-blue-500", "bg-green-500", "bg-yellow-500",
                                       "bg-purple-500", "bg-pink-500", "bg-indigo-500", "bg-orange-500"]

  /** `id.charCodeAt(0) || 0`: the first UTF-16 code unit, with an empty id's `NaN` replaced by 0. */
  function FirstCharCode(id: string): (code: int)
  {
    if id == "" then 0 else FirstCodeUnit(id[0])
  }

  function AvatarIndex(id: string): (k: int)
    ensures 0 <= k < |AvatarPalette|
  {
    FirstCharCode(id) % |AvatarPalette|
  }

  /** `getAvatarColor`. */
  function AvatarColor(c: Contact): (color: string)
    ensures color in AvatarPalette
  {
    AvatarPalette[AvatarIndex(c.id)]
  }

  /** The colour depends on nothing but the first character of the id; an empty id gets red. */
  lemma AvatarColorOnlyFirstChar(c: Contact, d: Contact)
    ensures c.id == "" ==> AvatarColor(c) == "bg-red-500"
    ensures c.id != "" && d.id != "" && c.id[0] == d.id[0] ==> AvatarColor(c) == AvatarColor(d)
    ensures c.id != "" && c.id[0] as int < 0x1_0000 ==> AvatarColor(c) == AvatarPalette[c.id[0] as int % 8]
  {
  }

  /** Distinct ids collide whenever their first code units agree modulo 8, e.g. "a…" and "i…". */
  lemma AvatarColorsCollide(c: Contact, d: Contact)
    requires c.id != "" && d.id != "" && c.id[0] == 'a' && d.id[0] == 'i'
    ensures AvatarColor(c) == AvatarColor(d) == "bg-blue-500"
  {
  }

  // ---------------------------------------------------------------------
  // Search: `filteredContacts`

  /** `field?.toLowerCase().includes(needle)`: an absent field never matches; a present "" can. */
  predicate FieldMatches(field: Option<string>, needle: string)
  {
    field.Some? && Includes(ToLowerCase(field.value), needle)
  }

  /**
   * The contacts page's predicate. Unlike the other list pages there is no
   * shortcut for an empty search term, and `email` is searched too.
   */
  predicate MatchesSearch(c: Contact, searchTerm: string)
  {
    var searchLower := ToLowerCase(searchTerm);
    FieldMatches(c.first_name, searchLower) || FieldMatches(c.last_name, searchLower)
    || FieldMatches(c.email, searchLower) || FieldMatches(c.company, searchLower)
  }

  /** `filteredContacts`: the fetched contacts that match, in fetched order. */
  function FilteredContacts(contacts: seq<Contact>, searchTerm: string): (r: seq<Contact>)
    ensures Seqs.IsSubsequence(r, contacts)
    ensures forall c :: c in r <==> c in contacts && MatchesSearch(c, searchTerm)
    ensures forall c {:trigger multiset(r)[c]} ::
              multiset(r)[c] == if MatchesSearch(c, searchTerm) then multiset(contacts)[c] else 0
  {
    var p := (c: Contact) => MatchesSearch(c, searchTerm);
    Seqs.FilterIsSubsequence(contacts, p);
    Seqs.Filter(contacts, p)
  }

  /** With the empty term, a contact shows iff one of its four searchable fields is present at all. */
  lemma EmptySearchNeedsAField(contacts: seq<Contact>, c: Contact)
    requires c in contacts
    ensures c in FilteredContacts(contacts, "") <==>
              c.first_name.Some? || c.last_name.Some? || c.email.Some? || c.company.Some?
  {
    assert ToLowerCase("") == "";
  }

  /** A contact whose first name, last name, email and company are all absent is hidden whatever the term. */
  lemma FieldlessContactHidden(contacts: seq<Contact>, c: Contact, searchTerm: string)
    requires c.first_name.None? && c.last_name.None? && c.email.None? && c.company.None?
    ensures c !in FilteredContacts(contacts, searchTerm)
  {
  }

  /** A contact with only its required columns is listed nowhere and shows the placeholder name. */
  lemma BareContactHiddenAndUnnamed(contacts: seq<Contact>, searchTerm: string, id: string, userId: string,
                                     createdAt: string, updatedAt: string)
    ensures var c := MinimalContact(id, userId, createdAt, updatedAt);
            c !in FilteredContacts(contacts, searchTerm) && DisplayName(c) == "Unnamed Contact"
  {
    var c := MinimalContact(id, userId, createdAt, updatedAt);
    FieldlessContactHidden(contacts, c, searchTerm);
    NamelessContactShowsPlaceholder(c);
  }

  /** The search ignores the case of the term. */
  lemma {:induction false} SearchIgnoresCase(contacts: seq<Contact>, searchTerm: string)
    ensures FilteredContacts(contacts, ToUpperCase(searchTerm)) == FilteredContacts(contacts, searchTerm)
  {
    LowerOfUpper(searchTerm);
    if contacts != [] {
      SearchIgnoresCase(contacts[1..], searchTerm);
    }
  }
}
