/**
 * The contact capture form shown after the savings results: name, phone and
 * e-mail, the two shape checks on phone and e-mail, and the contact record
 * built on a valid submit.
 */
module ContactForm {
  import opened Wrappers
  import opened Text
  import opened Calculations

  /** The three inputs, which are also the keys of the error map. */
  datatype ContactField = Name | Phone | Email

  datatype FormData = FormData(name: string, phone: string, email: string)

  /** The restaurant the lead is about, as entered before the calculator. */
  datatype RestaurantInfo = RestaurantInfo(name: string, city: string)

  /** The record handed on by a valid submit; the time stamp is not modelled. */
  datatype ContactData = ContactData(
    name: string, phone: string, email: string,
    restaurantName: string, city: string, calculatedSavings: real)

  const NameRequired := "Name is required"
  const PhoneRequired := "Phone number is required"
  const PhoneInvalid := "Please enter a valid phone number"
  const EmailRequired := "Email address is required"
  const EmailInvalid := "Please enter a valid email address"

  // Phone numbers

  /** The characters the phone check ignores: white space, `-`, `(`, `)` and `.`. */
  predicate IsPhonePunctuation(c: char) {
    IsSpace(c) || c == '-' || c == '(' || c == ')' || c == '.'
  }

  predicate KeptInPhone(c: char) { !IsPhonePunctuation(c) }

  /** The phone number with its punctuation removed. */
  function CleanPhone(phone: string): (r: string)
    ensures |r| <= |phone|
    ensures forall i | 0 <= i < |r| :: !IsPhonePunctuation(r[i])
  {
    Keep(phone, KeptInPhone)
  }

  /** `^\+?[1-9]\d{0,15}$`: an optional `+`, a digit other than 0, then at most fifteen digits. */
  predicate PhonePattern(c: string) {
    var body := if |c| > 0 && c[0] == '+' then c[1..] else c;
    && 1 <= |body| <= 16
    && '1' <= body[0] <= '9'
    && AllDigits(body)
  }

  /** A phone is accepted when, without punctuation, it has at least ten characters and fits the pattern. */
  predicate ValidatePhone(phone: string) {
    var c := CleanPhone(phone);
    |c| >= 10 && PhonePattern(c)
  }

  /**
   * What an accepted phone is once cleaned: ten to seventeen characters, all
   * digits except possibly a leading `+`, and a first digit other than 0; and
   * every such cleaned string is accepted.
   */
  lemma PhoneAcceptedIff(phone: string)
    ensures var c := CleanPhone(phone);
      ValidatePhone(phone) <==>
        && 10 <= |c| <= (if c[0] == '+' then 17 else 16)
        && (forall k | 0 <= k < |c| :: IsDigit(c[k]) || (k == 0 && c[k] == '+'))
        && c[if c[0] == '+' then 1 else 0] != '0'
  {
    var c := CleanPhone(phone);
    if |c| >= 10 {
      var body := if c[0] == '+' then c[1..] else c;
      if c[0] == '+' {
        assert forall k | 1 <= k < |c| :: c[k] == body[k - 1];
      } else {
        assert body == c;
      }
    }
  }

  /** Removing punctuation twice removes nothing more. */
  lemma CleanPhoneIdempotent(phone: string)
    ensures CleanPhone(CleanPhone(phone)) == CleanPhone(phone)
  {
    KeepAll(CleanPhone(phone), KeptInPhone);
  }

  /** The check does not see punctuation: a phone and its cleaned form are accepted alike. */
  lemma ValidatePhoneIgnoresPunctuation(phone: string)
    ensures ValidatePhone(CleanPhone(phone)) == ValidatePhone(phone)
  {
    CleanPhoneIdempotent(phone);
  }

  /** Trimming the phone first, as the form does, does not change the verdict. */
  lemma ValidatePhoneOfTrimmed(phone: string)
    ensures CleanPhone(Trim(phone)) == CleanPhone(phone)
    ensures ValidatePhone(Trim(phone)) == ValidatePhone(phone)
  {
    CleanOfTrimStart(phone);
    CleanOfTrimEnd(TrimStart(phone));
  }

  /** Leading white space does not survive cleaning. */
  lemma {:induction false} CleanOfTrimStart(s: string)
    ensures CleanPhone(TrimStart(s)) == CleanPhone(s)
  {
    if s != [] && IsSpace(s[0]) {
      CleanOfTrimStart(s[1..]);
    }
  }

  /** Trailing white space does not survive cleaning. */
  lemma {:induction false} CleanOfTrimEnd(s: string)
    ensures CleanPhone(TrimEnd(s)) == CleanPhone(s)
  {
    if s != [] && IsSpace(s[|s| - 1]) {
      var init := s[..|s| - 1];
      CleanOfTrimEnd(init);
      assert s == init + [s[|s| - 1]];
      KeepConcat(init, [s[|s| - 1]], KeptInPhone);
      assert Keep([s[|s| - 1]], KeptInPhone) == [];
      assert CleanPhone(init) + [] == CleanPhone(init);
    }
  }

  lemma CleanDigits(ds: string)
    requires AllDigits(ds)
    ensures CleanPhone(ds) == ds
  {
    KeepAll(ds, KeptInPhone);
  }

  lemma CleanSeparated(sep: string, ds: string)
    requires forall i | 0 <= i < |sep| :: IsPhonePunctuation(sep[i])
    requires AllDigits(ds)
    ensures CleanPhone(sep + ds) == ds
  {
    NoneKeptOf(sep);
    CleanDigits(ds);
    KeepConcat(sep, ds, KeptInPhone);
  }

  lemma {:induction false} NoneKeptOf(s: string)
    requires forall i | 0 <= i < |s| :: IsPhonePunctuation(s[i])
    ensures CleanPhone(s) == []
  {
    if s != [] {
      NoneKeptOf(s[1..]);
    }
  }

  /** A ten-digit number written `(XXX) XXX-XXXX` is accepted unless its first digit is 0. */
  lemma MaskedNumberAccepted(d: string)
    requires AllDigits(d) && |d| == 10
    ensures var masked := "(" + d[..3] + ") " + d[3..6] + "-" + d[6..];
      CleanPhone(masked) == d && (ValidatePhone(masked) <==> d[0] != '0')
  {
    var a, b, c := "(" + d[..3], ") " + d[3..6], "-" + d[6..];
    assert "(" + d[..3] + ") " + d[3..6] + "-" + d[6..] == a + b + c;
    CleanSeparated("(", d[..3]);
    CleanSeparated(") ", d[3..6]);
    CleanSeparated("-", d[6..]);
    KeepConcat(a + b, c, KeptInPhone);
    KeepConcat(a, b, KeptInPhone);
    assert d[..3] + d[3..6] + d[6..] == d;
  }

  /** A bare run of digits starting with 0 is refused whatever its length. */
  lemma LeadingZeroRejected(d: string)
    requires AllDigits(d) && d != [] && d[0] == '0'
    ensures !ValidatePhone(d)
  {
    CleanDigits(d);
  }

  // E-mail addresses

  /** A character that may stand in either part of an address: neither white space nor `@`. */
  predicate Plain(c: char) { c != '@' && !IsSpace(c) }

  predicate AllPlain(s: string) { forall k | 0 <= k < |s| :: Plain(s[k]) }

  /** A domain part of `[^\s@]+\.[^\s@]+`: plain characters with a `.` neither first nor last. */
  predicate DomainShape(d: string) {
    AllPlain(d) && exists j | 1 <= j < |d| - 1 :: d[j] == '.'
  }

  /** `^[^\s@]+@[^\s@]+\.[^\s@]+$`: a non-empty plain local part, `@`, and a domain of that shape. */
  predicate EmailShape(e: string) {
    exists i | 0 < i < |e| :: e[i] == '@' && AllPlain(e[..i]) && DomainShape(e[i + 1..])
  }

  /**
   * The states of a left-to-right matcher for the e-mail pattern: before the
   * local part, inside it, just after `@`, inside the domain before a usable `.`,
   * just after such a `.`, after at least one character past it, and failed.
   */
  datatype EmailState = Start | Local | AfterAt | Domain | DotPending | Done | Failed

  function Step(st: EmailState, c: char): EmailState {
    if !Plain(c) && !(c == '@' && st == Local) then Failed
    else
      match st
      case Start => Local
      case Local => if c == '@' then AfterAt else Local
      case AfterAt => Domain
      case Domain => if c == '.' then DotPending else Domain
      case DotPending => Done
      case Done => Done
      case Failed => Failed
  }

  function Run(s: string, st: EmailState): EmailState {
    if s == [] then st else Run(s[1..], Step(st, s[0]))
  }

  /** The e-mail check: the matcher ends in its accepting state. */
  predicate ValidateEmail(email: string) {
    Run(email, Start) == Done
  }

  lemma {:induction false} RunFailed(s: string)
    ensures Run(s, Failed) == Failed
  {
    if s != [] {
      RunFailed(s[1..]);
    }
  }

  lemma {:induction false} RunDone(s: string)
    ensures Run(s, Done) == Done <==> AllPlain(s)
  {
    if s != [] {
      if Plain(s[0]) {
        RunDone(s[1..]);
        assert AllPlain(s) <==> AllPlain(s[1..]);
      } else {
        RunFailed(s[1..]);
      }
    }
  }

  lemma RunDotPending(s: string)
    ensures Run(s, DotPending) == Done <==> s != [] && AllPlain(s)
  {
    if s != [] {
      if Plain(s[0]) {
        RunDone(s[1..]);
        assert AllPlain(s) <==> AllPlain(s[1..]);
      } else {
        RunFailed(s[1..]);
      }
    }
  }

  /** From inside the domain: plain characters to the end, with a `.` that is not last. */
  lemma {:induction false} RunDomain(s: string)
    ensures Run(s, Domain) == Done <==> AllPlain(s) && exists j | 0 <= j < |s| - 1 :: s[j] == '.'
  {
    if s != [] {
      var rest := s[1..];
      assert AllPlain(s) <==> Plain(s[0]) && AllPlain(rest);
      if !Plain(s[0]) {
        RunFailed(rest);
      } else if s[0] == '.' {
        RunDotPending(rest);
        if rest != [] && AllPlain(rest) {
          assert s[0] == '.' && 0 < |s| - 1;
        }
      } else {
        RunDomain(rest);
        if exists j | 0 <= j < |s| - 1 :: s[j] == '.' {
          var j :| 0 <= j < |s| - 1 && s[j] == '.';
          assert rest[j - 1] == '.';
        }
        if exists j | 0 <= j < |rest| - 1 :: rest[j] == '.' {
          var j :| 0 <= j < |rest| - 1 && rest[j] == '.';
          assert s[j + 1] == '.';
        }
      }
    }
  }

  lemma RunAfterAt(s: string)
    ensures Run(s, AfterAt) == Done <==> DomainShape(s)
  {
    if s != [] {
      var rest := s[1..];
      assert AllPlain(s) <==> Plain(s[0]) && AllPlain(rest);
      if !Plain(s[0]) {
        RunFailed(rest);
      } else {
        RunDomain(rest);
        if exists j | 1 <= j < |s| - 1 :: s[j] == '.' {
          var j :| 1 <= j < |s| - 1 && s[j] == '.';
          assert rest[j - 1] == '.';
        }
        if exists j | 0 <= j < |rest| - 1 :: rest[j] == '.' {
          var j :| 0 <= j < |rest| - 1 && rest[j] == '.';
          assert s[j + 1] == '.';
        }
      }
    }
  }

  /** The matcher inside the local part accepts exactly a (possibly empty) plain rest of it, `@` and a domain. */
  predicate LocalRest(s: string) {
    exists i | 0 <= i < |s| :: s[i] == '@' && AllPlain(s[..i]) && DomainShape(s[i + 1..])
  }

  /** `@` first: the rest is a domain. */
  lemma LocalRestAt(s: string)
    requires s != [] && s[0] == '@'
    ensures LocalRest(s) <==> DomainShape(s[1..])
  {
    if DomainShape(s[1..]) {
      assert s[..0] == [] && s[0 + 1..] == s[1..];
    }
    if LocalRest(s) {
      var i :| 0 <= i < |s| && s[i] == '@' && AllPlain(s[..i]) && DomainShape(s[i + 1..]);
      assert i > 0 ==> s[..i][0] == '@';
    }
  }

  lemma AllPlainDrop(a: string)
    requires a != [] && AllPlain(a)
    ensures AllPlain(a[1..])
  {
    assert forall k | 0 <= k < |a| - 1 :: a[1..][k] == a[k + 1];
  }

  lemma AllPlainCons(c: char, a: string)
    requires Plain(c) && AllPlain(a)
    ensures AllPlain([c] + a)
  {
    assert forall k | 1 <= k <= |a| :: ([c] + a)[k] == a[k - 1];
  }

  /** Dropping a plain first character of a local part leaves the rest of one. */
  lemma LocalRestDrop(s: string, i: nat)
    requires 0 < i < |s| && s[i] == '@' && AllPlain(s[..i]) && DomainShape(s[i + 1..])
    ensures LocalRest(s[1..])
  {
    var rest := s[1..];
    AllPlainDrop(s[..i]);
    assert rest[..i - 1] == s[..i][1..];
    assert rest[i - 1 + 1..] == s[i + 1..];
    assert rest[i - 1] == '@';
  }

  /** A plain character before the rest of a local part makes the rest of one. */
  lemma LocalRestCons(s: string, i: nat)
    requires s != [] && Plain(s[0])
    requires i < |s| - 1 && s[1..][i] == '@' && AllPlain(s[1..][..i]) && DomainShape(s[1..][i + 1..])
    ensures LocalRest(s) && EmailShape(s)
  {
    var rest := s[1..];
    AllPlainCons(s[0], rest[..i]);
    assert s[..i + 1] == [s[0]] + rest[..i];
    assert s[i + 1 + 1..] == rest[i + 1..];
    assert s[i + 1] == '@';
  }

  /** A plain character first: it belongs to the local part and the rest must finish it. */
  lemma LocalRestPlain(s: string)
    requires s != [] && Plain(s[0])
    ensures LocalRest(s) <==> LocalRest(s[1..])
  {
    var rest := s[1..];
    if LocalRest(s) {
      var i :| 0 <= i < |s| && s[i] == '@' && AllPlain(s[..i]) && DomainShape(s[i + 1..]);
      LocalRestDrop(s, i);
    }
    if LocalRest(rest) {
      var i :| 0 <= i < |rest| && rest[i] == '@' && AllPlain(rest[..i]) && DomainShape(rest[i + 1..]);
      LocalRestCons(s, i);
    }
  }

  /** White space first: the local part cannot hold it. */
  lemma LocalRestSpace(s: string)
    requires s != [] && !Plain(s[0]) && s[0] != '@'
    ensures !LocalRest(s)
  {
    forall i | 0 <= i < |s| && s[i] == '@'
      ensures !AllPlain(s[..i])
    {
      assert s[..i][0] == s[0];
    }
  }

  lemma {:induction false} RunLocal(s: string)
    ensures Run(s, Local) == Done <==> LocalRest(s)
  {
    if s != [] {
      var rest := s[1..];
      if s[0] == '@' {
        RunAfterAt(rest);
        LocalRestAt(s);
      } else if Plain(s[0]) {
        RunLocal(rest);
        LocalRestPlain(s);
      } else {
        RunFailed(rest);
        LocalRestSpace(s);
      }
    }
  }

  /** An address is a plain first character followed by the rest of a local part, `@` and a domain. */
  lemma EmailShapeFirst(e: string)
    ensures EmailShape(e) <==> e != [] && Plain(e[0]) && LocalRest(e[1..])
  {
    if EmailShape(e) {
      var i :| 0 < i < |e| && e[i] == '@' && AllPlain(e[..i]) && DomainShape(e[i + 1..]);
      assert e[..i][0] == e[0];
      LocalRestDrop(e, i);
    }
    if e != [] && Plain(e[0]) && LocalRest(e[1..]) {
      var rest := e[1..];
      var i :| 0 <= i < |rest| && rest[i] == '@' && AllPlain(rest[..i]) && DomainShape(rest[i + 1..]);
      LocalRestCons(e, i);
    }
  }

  /** The matcher accepts exactly the addresses of the pattern's shape. */
  lemma ValidateEmailIff(email: string)
    ensures ValidateEmail(email) <==> EmailShape(email)
  {
    EmailShapeFirst(email);
    if email != [] {
      if Plain(email[0]) {
        RunLocal(email[1..]);
      } else {
        RunFailed(email[1..]);
      }
    }
  }

  /** An accepted address holds exactly one `@`. */
  lemma EmailSingleAt(email: string)
    requires ValidateEmail(email)
    ensures exists i | 0 < i < |email| :: email[i] == '@' && forall k | 0 <= k < |email| && email[k] == '@' :: k == i
  {
    ValidateEmailIff(email);
    var e := email;
    var i :| 0 < i < |e| && e[i] == '@' && AllPlain(e[..i]) && DomainShape(e[i + 1..]);
    assert forall k | 0 <= k < i :: e[..i][k] == e[k];
    assert forall k | i < k < |e| :: e[i + 1..][k - i - 1] == e[k];
  }

  // The form

  function Get(data: FormData, field: ContactField): string {
    match field
    case Name => data.name
    case Phone => data.phone
    case Email => data.email
  }

  /** The form data with one field replaced and the others kept. */
  function Set(data: FormData, field: ContactField, value: string): (r: FormData)
    ensures Get(r, field) == value
    ensures forall f | f != field :: Get(r, f) == Get(data, f)
  {
    match field
    case Name => data.(name := value)
    case Phone => data.(phone := value)
    case Email => data.(email := value)
  }

  predicate Blank(s: string) { forall i | 0 <= i < |s| :: IsSpace(s[i]) }

  /**
   * The checks of the whole form: the name must not be blank; the phone and the
   * e-mail are "required" when blank, and otherwise their trimmed text must pass
   * its check.
   */
  function FormErrors(data: FormData): map<ContactField, string> {
    var e1: map<ContactField, string> := if Trim(data.name) == [] then map[Name := NameRequired] else map[];
    var phone := Trim(data.phone);
    var e2 :=
      if phone == [] then e1[Phone := PhoneRequired]
      else if !ValidatePhone(phone) then e1[Phone := PhoneInvalid]
      else e1;
    var email := Trim(data.email);
    if email == [] then e2[Email := EmailRequired]
    else if !ValidateEmail(email) then e2[Email := EmailInvalid]
    else e2
  }

  /** The error of each field, stated on the untrimmed input. */
  lemma FormErrorsSpec(data: FormData)
    ensures var r := FormErrors(data);
      && (Name in r <==> Blank(data.name))
      && (Name in r ==> r[Name] == NameRequired)
      && (Phone in r <==> Blank(data.phone) || !ValidatePhone(Trim(data.phone)))
      && (Phone in r ==> r[Phone] == if Blank(data.phone) then PhoneRequired else PhoneInvalid)
      && (Email in r <==> Blank(data.email) || !ValidateEmail(Trim(data.email)))
      && (Email in r ==> r[Email] == if Blank(data.email) then EmailRequired else EmailInvalid)
      && r.Keys <= {Name, Phone, Email}
  {
    TrimEmptyIff(data.name);
    TrimEmptyIff(data.phone);
    TrimEmptyIff(data.email);
  }

  /**
   * The form passes exactly when the name is not blank, the phone is accepted
   * (trimmed or not makes no difference) and the trimmed e-mail has the shape
   * of an address.
   */
  lemma FormAccepted(data: FormData)
    ensures FormErrors(data) == map[] <==>
      !Blank(data.name) && ValidatePhone(data.phone) && EmailShape(Trim(data.email))
  {
    FormErrorsEmpty(data);
    TrimEmptyIff(data.name);
    ValidatePhoneOfTrimmed(data.phone);
    ValidateEmailIff(Trim(data.email));
    assert CleanPhone([]) == [];
  }

  /** No error at all exactly when each trimmed input is present and passes its check. */
  lemma FormErrorsEmpty(data: FormData)
    ensures FormErrors(data) == map[] <==>
      && Trim(data.name) != []
      && ValidatePhone(Trim(data.phone))
      && ValidateEmail(Trim(data.email))
  {
    var r := FormErrors(data);
    assert CleanPhone([]) == [];
    if r == map[] {
      assert Name !in r && Phone !in r && Email !in r;
    }
  }

  /** The form's state; the restaurant and the results it was opened with do not change. */
  class ContactCaptureForm {
    var formData: FormData
    var errors: map<ContactField, string>
    var isSubmitting: bool
    const restaurantInfo: RestaurantInfo
    const calculationResults: CalculationResults

    constructor(restaurant: RestaurantInfo, results: CalculationResults)
      ensures formData == FormData("", "", "") && errors == map[] && !isSubmitting
      ensures restaurantInfo == restaurant && calculationResults == results
    {
      formData := FormData("", "", "");
      errors := map[];
      isSubmitting := false;
      restaurantInfo := restaurant;
      calculationResults := results;
    }

    /** Typing in a field replaces that field only and clears that field's error only. */
    method HandleInputChange(field: ContactField, value: string)
      modifies this
      ensures formData == Set(old(formData), field, value)
      ensures errors == old(errors) - {field}
      ensures isSubmitting == old(isSubmitting)
    {
      formData := Set(formData, field, value);
      if field in errors {
        errors := errors - {field};
      }
    }

    /** The errors found replace those on show, even when there are none; the answer is whether there are none. */
    method ValidateForm() returns (ok: bool)
      modifies this
      ensures errors == FormErrors(formData)
      ensures ok <==> errors == map[]
      ensures formData == old(formData) && isSubmitting == old(isSubmitting)
    {
      errors := FormErrors(formData);
      ok := errors == map[];
    }

    /**
     * Submitting: a failed check sends nothing; otherwise the form is marked as
     * submitting and the record is built from the trimmed name, phone and e-mail,
     * the restaurant, and the savings amount of the results.
     */
    method HandleSubmit() returns (sent: Option<ContactData>)
      modifies this
      ensures formData == old(formData) && errors == FormErrors(formData)
      ensures sent.Some? <==> errors == map[]
      ensures sent.Some? ==> isSubmitting
      ensures sent.None? ==> isSubmitting == old(isSubmitting)
      ensures sent.Some? ==> sent.value == ContactData(
        Trim(formData.name), Trim(formData.phone), Trim(formData.email),
        restaurantInfo.name, restaurantInfo.city, calculationResults.savingsAmount)
    {
      var ok := ValidateForm();
      if !ok {
        return None;
      }
      isSubmitting := true;
      sent := Some(ContactData(
        Trim(formData.name), Trim(formData.phone), Trim(formData.email),
        restaurantInfo.name, restaurantInfo.city, calculationResults.savingsAmount));
    }
  }
}
