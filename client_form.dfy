/**
 * The client form (project/src/components/clients/ClientForm.tsx): the
 * required-field rules, the email pattern `^[^\s@]+@[^\s@]+\.[^\s@]+$`, the
 * edit prefill and the submit decision.
 */
module ClientForm {
  import opened Options
  import opened Types
  import opened Text

  const NameRequired: string := "Client name is required"
  const EmailRequired: string := "Email is required"
  const EmailInvalid: string := "Please enter a valid email address"
  const AddressRequired: string := "Address is required"

  /** A run of `[^\s@]`: no whitespace and no `@`. */
  predicate NoSpaceOrAt(s: string) {
    forall k :: 0 <= k < |s| ==> !IsWhitespace(s[k]) && s[k] != '@'
  }

  /** A match of `[^\s@]+`. */
  predicate Part(s: string) {
    |s| > 0 && NoSpaceOrAt(s)
  }

  /**
   * The regular expression read literally: the whole string is a part, an
   * `@` at `i`, a part, a `.` at `j`, and a part.
   */
  ghost predicate MatchesEmailPattern(e: string): (r: bool)
    ensures r ==> |e| >= 5 && e[0] != '@' && e[|e| - 1] != '@'
  {
    exists i, j :: 0 < i < j < |e| - 1 && e[i] == '@' && e[j] == '.' &&
      Part(e[..i]) && Part(e[i + 1..j]) && Part(e[j + 1..])
  }

  /** The first index of `c` in `s`, or `|s|` if there is none. */
  function FirstIndex(s: string, c: char): (r: nat)
    ensures r <= |s|
    ensures r < |s| ==> s[r] == c
    ensures forall k :: 0 <= k < r ==> s[k] != c
  {
    if |s| == 0 then 0 else if s[0] == c then 0 else 1 + FirstIndex(s[1..], c)
  }

  /**
   * The check in the terms of its parts: a non-empty local part before the
   * first `@`, no whitespace anywhere, no second `@`, and a `.` in the domain
   * with text on both sides of it.
   */
  predicate IsValidEmail(e: string): (r: bool)
    ensures r ==> |e| >= 5 && e[0] != '@'
    ensures r ==> forall k :: 0 <= k < |e| ==> !IsWhitespace(e[k])
  {
    var at := FirstIndex(e, '@');
    && 0 < at < |e|
    && NoSpaceOrAt(e[..at])
    && NoSpaceOrAt(e[at + 1..])
    && exists k :: at + 1 < k < |e| - 1 && e[k] == '.'
  }

  /** A run of allowed characters stays one in any slice of it. */
  lemma SliceNoSpaceOrAt(s: string, lo: nat, hi: nat)
    requires lo <= hi <= |s| && NoSpaceOrAt(s)
    ensures NoSpaceOrAt(s[lo..hi])
  {
    forall k | 0 <= k < hi - lo ensures !IsWhitespace(s[lo..hi][k]) && s[lo..hi][k] != '@' {
      assert s[lo..hi][k] == s[lo + k];
    }
  }

  lemma ValidEmailMatches(e: string)
    requires IsValidEmail(e)
    ensures MatchesEmailPattern(e)
  {
    var at := FirstIndex(e, '@');
    var k :| at + 1 < k < |e| - 1 && e[k] == '.';
    var d := e[at + 1..];
    SliceNoSpaceOrAt(d, 0, k - at - 1);
    SliceNoSpaceOrAt(d, k - at, |d|);
    assert e[at + 1..k] == d[..k - at - 1];
    assert e[k + 1..] == d[k - at..];
  }

  /** Three allowed runs around a `.` make one allowed run. */
  lemma JoinNoSpaceOrAt(e: string, i: nat, j: nat)
    requires i < j < |e| && e[j] == '.'
    requires NoSpaceOrAt(e[i..j]) && NoSpaceOrAt(e[j + 1..])
    ensures NoSpaceOrAt(e[i..])
  {
    forall k | i <= k < |e| ensures !IsWhitespace(e[k]) && e[k] != '@' {
      if k < j {
        assert e[k] == e[i..j][k - i];
      } else if k > j {
        assert e[k] == e[j + 1..][k - j - 1];
      }
    }
    assert forall k :: 0 <= k < |e| - i ==> e[i..][k] == e[i + k];
  }

  lemma MatchIsValidEmail(e: string)
    requires MatchesEmailPattern(e)
    ensures IsValidEmail(e)
  {
    var i, j :| 0 < i < j < |e| - 1 && e[i] == '@' && e[j] == '.' &&
      Part(e[..i]) && Part(e[i + 1..j]) && Part(e[j + 1..]);
    forall k | 0 <= k < i ensures e[k] != '@' {
      assert e[k] == e[..i][k];
    }
    assert FirstIndex(e, '@') == i;
    JoinNoSpaceOrAt(e, i + 1, j);
  }

  /** The check accepts exactly the strings the pattern matches. */
  lemma EmailCheckMatchesPattern(e: string)
    ensures IsValidEmail(e) <==> MatchesEmailPattern(e)
  {
    if IsValidEmail(e) {
      ValidEmailMatches(e);
    }
    if MatchesEmailPattern(e) {
      MatchIsValidEmail(e);
    }
  }

  /** A matching address is never blank, so the two email errors cannot both apply. */
  lemma MatchingEmailNotBlank(e: string)
    ensures MatchesEmailPattern(e) ==> !AllWhitespace(e)
  {
    if MatchesEmailPattern(e) {
      var i, j :| 0 < i < j < |e| - 1 && e[i] == '@' && e[j] == '.' &&
        Part(e[..i]) && Part(e[i + 1..j]) && Part(e[j + 1..]);
      assert e[0] == e[..i][0];
    }
  }

  /** `"a@b.co"` matches the pattern. */
  lemma ShortAddressMatches()
    ensures MatchesEmailPattern("a@b.co")
  {
    var e := "a@b.co";
    assert e[..1] == "a" && e[2..3] == "b" && e[4..] == "co";
    assert Part("a") && Part("b") && Part("co");
    assert e[1] == '@' && e[3] == '.';
  }

  /** `"not-an-email"` has no `@` and fails. */
  lemma NoAtFails()
    ensures !MatchesEmailPattern("not-an-email")
  {
    var e := "not-an-email";
    assert forall k :: 0 <= k < |e| ==> e[k] != '@';
    assert FirstIndex(e, '@') == |e|;
    EmailCheckMatchesPattern(e);
  }

  /** `" a@b.co"` starts with a space and fails. */
  lemma LeadingSpaceFails()
    ensures !MatchesEmailPattern(" a@b.co")
  {
    var e := " a@b.co";
    assert e[0] == ' ' && e[1] == 'a' && e[2] == '@';
    assert FirstIndex(e, '@') == 2;
    assert e[..2][0] == ' ';
    EmailCheckMatchesPattern(e);
  }

  /** The three messages `validate` can set. */
  datatype ClientErrors = ClientErrors(name: Option<string>, email: Option<string>, address: Option<string>)

  predicate NoErrors(e: ClientErrors) {
    e.name.None? && e.email.None? && e.address.None?
  }

  /**
   * `validate`'s `newErrors`: name and address must not be blank; the email
   * must not be blank and, as typed (untrimmed), must match the pattern.
   */
  function Validation(d: ClientData): (e: ClientErrors)
    ensures e.name.Some? <==> AllWhitespace(d.name)
    ensures e.address.Some? <==> AllWhitespace(d.address)
    ensures e.email == Some(EmailRequired) <==> AllWhitespace(d.email)
    ensures e.email == Some(EmailInvalid) <==> !AllWhitespace(d.email) && !MatchesEmailPattern(d.email)
    ensures e.email.None? <==> MatchesEmailPattern(d.email)
    ensures e.name.Some? ==> e.name == Some(NameRequired)
    ensures e.address.Some? ==> e.address == Some(AddressRequired)
  {
    TrimEmptyIffBlank(d.name);
    TrimEmptyIffBlank(d.email);
    TrimEmptyIffBlank(d.address);
    EmailCheckMatchesPattern(d.email);
    MatchingEmailNotBlank(d.email);
    ClientErrors(
      if Trim(d.name) == "" then Some(NameRequired) else None,
      if Trim(d.email) == "" then Some(EmailRequired)
      else if !IsValidEmail(d.email) then Some(EmailInvalid)
      else None,
      if Trim(d.address) == "" then Some(AddressRequired) else None)
  }

  /** The form validates exactly when name and address are not blank and the email matches. */
  lemma ValidIff(d: ClientData)
    ensures NoErrors(Validation(d)) <==>
      !AllWhitespace(d.name) && !AllWhitespace(d.address) && MatchesEmailPattern(d.email)
  {
  }

  /** The edit prefill: required fields copied, a missing phone or company as `''`. */
  function PrefillData(c: Client): (d: ClientData)
    ensures d.name == c.name && d.email == c.email && d.address == c.address
    ensures d.phone == Some(c.phone.GetOr("")) && d.company == Some(c.company.GetOr(""))
    ensures c.phone.Some? && c.company.Some? ==> NewClient(c.id, d) == c
  {
    ClientData(c.name, c.email, c.address, Some(c.phone.GetOr("")), Some(c.company.GetOr("")))
  }

  /** The inputs wired to `handleChange`, by their `name` attribute. */
  datatype Field = NameField | EmailField | PhoneField | CompanyField | AddressField

  /** `handleChange`: the named field takes the text as typed; the others stay. */
  function Change(d: ClientData, field: Field, value: string): (r: ClientData)
    ensures field == NameField ==> r == d.(name := value)
    ensures field == EmailField ==> r == d.(email := value)
    ensures field == AddressField ==> r == d.(address := value)
    ensures field == PhoneField ==> r == d.(phone := Some(value))
    ensures field == CompanyField ==> r == d.(company := Some(value))
  {
    match field
    case NameField => d.(name := value)
    case EmailField => d.(email := value)
    case PhoneField => d.(phone := Some(value))
    case CompanyField => d.(company := Some(value))
    case AddressField => d.(address := value)
  }

  /** The form component's state. */
  class ClientFormState {
    var formData: ClientData
    var errors: ClientErrors

    constructor ()
      ensures formData == ClientData("", "", "", Some(""), Some(""))
      ensures errors == ClientErrors(None, None, None)
    {
      formData := ClientData("", "", "", Some(""), Some(""));
      errors := ClientErrors(None, None, None);
    }

    /** The prefill effect: copy the client when editing, else keep the empty form. */
    method Prefill(client: Option<Client>)
      modifies this
      ensures client.Some? ==> formData == PrefillData(client.value)
      ensures client.None? ==> formData == old(formData)
      ensures errors == old(errors)
    {
      if client.Some? {
        formData := PrefillData(client.value);
      }
    }

    method HandleChange(field: Field, value: string)
      modifies this
      ensures formData == Change(old(formData), field, value) && errors == old(errors)
    {
      formData := Change(formData, field, value);
    }

    /** `validate()`: record the errors and report whether there are none. */
    method Validate() returns (ok: bool)
      modifies this
      ensures errors == Validation(formData) && formData == old(formData)
      ensures ok <==> !AllWhitespace(formData.name) && !AllWhitespace(formData.address) && MatchesEmailPattern(formData.email)
    {
      errors := Validation(formData);
      ok := NoErrors(errors);
    }

    /** `handleSubmit`: what `onSubmit` receives, if it is called at all. */
    method HandleSubmit() returns (submitted: Option<ClientData>)
      modifies this
      ensures errors == Validation(formData) && formData == old(formData)
      ensures submitted.Some? <==> NoErrors(Validation(formData))
      ensures submitted.Some? ==> submitted.value == formData
    {
      var ok := Validate();
      submitted := if ok then Some(formData) else None;
    }
  }
}
