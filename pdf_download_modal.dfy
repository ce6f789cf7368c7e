/**
 * The marketing-plan download modal: a name and a phone number, the phone kept
 * masked as `(XXX) XXX-XXXX` while it is typed, and the checks run on submit.
 */
module PdfModal {
  import opened Wrappers
  import opened Text

  /** The two fields of the form, which are also the keys of its error map. */
  datatype PdfField = Name | Phone

  const NameRequired := "Name is required"
  const PhoneRequired := "Phone number is required"
  const PhoneInvalid := "Please enter a valid 10-digit phone number"

  /** A phone number is valid when it holds exactly ten decimal digits, whatever else it holds. */
  predicate ValidatePhone(phone: string) {
    |DigitsOf(phone)| == 10
  }

  function Min(a: int, b: int): int { if a <= b then a else b }

  /**
   * The mask applied to a run of digits: up to three digits stay bare, up to six
   * get the area code in parentheses, and longer runs are cut to ten digits
   * written `(XXX) XXX-XXXX`.
   */
  function FormatDigits(d: string): (r: string)
    ensures |r| <= 14
    ensures |d| <= 3 ==> r == d
  {
    if |d| <= 3 then d
    else if |d| <= 6 then "(" + d[..3] + ") " + d[3..]
    else "(" + d[..3] + ") " + d[3..6] + "-" + d[6..Min(|d|, 10)]
  }

  /** The phone field's mask: the digits of what was typed, formatted. */
  function FormatPhone(value: string): (r: string)
    ensures |r| <= 14
  {
    FormatDigits(DigitsOf(value))
  }

  lemma NoDigits(s: string)
    requires forall i | 0 <= i < |s| :: !IsDigit(s[i])
    ensures DigitsOf(s) == []
  {
    if s != [] {
      NoDigits(s[1..]);
    }
  }

  /** A run of digits after a separator with no digit in it keeps just that run. */
  lemma SeparatedDigits(sep: string, ds: string)
    requires forall i | 0 <= i < |sep| :: !IsDigit(sep[i])
    requires AllDigits(ds)
    ensures DigitsOf(sep + ds) == ds
  {
    NoDigits(sep);
    DigitsOfDigits(ds);
    KeepConcat(sep, ds, IsDigit);
  }

  lemma MaskSix(d: string)
    requires AllDigits(d) && 3 < |d| <= 6
    ensures DigitsOf(FormatDigits(d)) == d
  {
    var a, b := "(" + d[..3], ") " + d[3..];
    assert FormatDigits(d) == a + b;
    SeparatedDigits("(", d[..3]);
    SeparatedDigits(") ", d[3..]);
    KeepConcat(a, b, IsDigit);
    assert d[..3] + d[3..] == d;
  }

  lemma MaskTen(d: string)
    requires AllDigits(d) && 6 < |d|
    ensures DigitsOf(FormatDigits(d)) == d[..Min(|d|, 10)]
  {
    var n := Min(|d|, 10);
    var a, b, c := "(" + d[..3], ") " + d[3..6], "-" + d[6..n];
    assert FormatDigits(d) == a + b + c;
    SeparatedDigits("(", d[..3]);
    SeparatedDigits(") ", d[3..6]);
    SeparatedDigits("-", d[6..n]);
    KeepConcat(a + b, c, IsDigit);
    KeepConcat(a, b, IsDigit);
    assert d[..3] + d[3..6] + d[6..n] == d[..n];
  }

  /** The mask keeps the digits it was given, in order, up to the first ten. */
  lemma FormatDigitsKeepsDigits(d: string)
    requires AllDigits(d)
    ensures DigitsOf(FormatDigits(d)) == d[..Min(|d|, 10)]
  {
    if |d| <= 3 {
      DigitsOfDigits(d);
      assert d[..|d|] == d;
    } else if |d| <= 6 {
      MaskSix(d);
      assert d[..|d|] == d;
    } else {
      MaskTen(d);
    }
  }

  /** The digits of a masked phone number are the first ten digits typed. */
  lemma FormatPhoneDigits(value: string)
    ensures DigitsOf(FormatPhone(value)) == DigitsOf(value)[..Min(|DigitsOf(value)|, 10)]
  {
    FormatDigitsKeepsDigits(DigitsOf(value));
  }

  /** Masking a masked number changes nothing, so the field is stable under further edits that add no digit. */
  lemma FormatPhoneIdempotent(value: string)
    ensures FormatPhone(FormatPhone(value)) == FormatPhone(value)
  {
    var d := DigitsOf(value);
    var n := Min(|d|, 10);
    FormatPhoneDigits(value);
    assert DigitsOf(FormatPhone(value)) == d[..n];
    var e := d[..n];
    if |d| > 6 {
      assert e[..3] == d[..3] && e[3..6] == d[3..6] && e[6..Min(|e|, 10)] == d[6..n];
    } else if |d| > 3 {
      assert e[..3] == d[..3] && e[3..] == d[3..];
    } else {
      assert e == d;
    }
  }

  /** A masked number passes the check exactly when at least ten digits were typed. */
  lemma FormatPhoneValidIff(value: string)
    ensures ValidatePhone(FormatPhone(value)) <==> |DigitsOf(value)| >= 10
  {
    FormatPhoneDigits(value);
  }

  /** Ten digits are masked to the fourteen characters `(XXX) XXX-XXXX`. */
  lemma FormatTenDigits(d: string)
    requires AllDigits(d) && |d| == 10
    ensures FormatDigits(d) == "(" + d[..3] + ") " + d[3..6] + "-" + d[6..]
    ensures |FormatDigits(d)| == 14
  {
  }

  /**
   * The errors found on submit: a name error when the name is blank; a phone
   * error when the phone is blank, and otherwise when it does not hold ten digits.
   */
  function SubmitErrors(name: string, phone: string): (r: map<PdfField, string>)
    ensures Name in r <==> forall i | 0 <= i < |name| :: IsSpace(name[i])
    ensures Name in r ==> r[Name] == NameRequired
    ensures Phone in r <==> (forall i | 0 <= i < |phone| :: IsSpace(phone[i])) || |DigitsOf(phone)| != 10
    ensures Phone in r && (forall i | 0 <= i < |phone| :: IsSpace(phone[i])) ==> r[Phone] == PhoneRequired
    ensures Phone in r && (exists i | 0 <= i < |phone| :: !IsSpace(phone[i])) ==> r[Phone] == PhoneInvalid
    ensures r.Keys <= {Name, Phone}
  {
    TrimEmptyIff(name);
    TrimEmptyIff(phone);
    var nameErrors := if Trim(name) == [] then map[Name := NameRequired] else map[];
    if Trim(phone) == [] then nameErrors[Phone := PhoneRequired]
    else if !ValidatePhone(phone) then nameErrors[Phone := PhoneInvalid]
    else nameErrors
  }

  /** A submit goes through exactly when the name is not blank and the phone holds ten digits. */
  lemma SubmitAccepted(name: string, phone: string)
    ensures SubmitErrors(name, phone) == map[] <==>
      (exists i | 0 <= i < |name| :: !IsSpace(name[i])) && |DigitsOf(phone)| == 10
  {
    var r := SubmitErrors(name, phone);
    if |DigitsOf(phone)| == 10 {
      DigitWitness(phone);
    }
    if r == map[] {
      assert Name !in r && Phone !in r;
    }
  }

  /** A string holding a digit holds a character that is not white space. */
  lemma {:induction false} DigitWitness(s: string)
    requires |DigitsOf(s)| > 0
    ensures exists i | 0 <= i < |s| :: !IsSpace(s[i])
  {
    if IsDigit(s[0]) {
      assert !IsSpace(s[0]);
    } else {
      DigitWitness(s[1..]);
      var i :| 0 <= i < |s[1..]| && !IsSpace(s[1..][i]);
      assert !IsSpace(s[i + 1]);
    }
  }

  /** The modal's state: the two inputs and the errors on show. */
  class PdfDownloadForm {
    var name: string
    var phone: string
    var errors: map<PdfField, string>

    /** The phone field always shows a masked number. */
    predicate Valid()
      reads this
    {
      phone == FormatPhone(phone)
    }

    constructor()
      ensures Valid()
      ensures name == "" && phone == "" && errors == map[]
    {
      name := "";
      phone := "";
      errors := map[];
    }

    /** Typing in the name field stores the text and clears the name error. */
    method HandleNameChange(value: string)
      requires Valid()
      modifies this
      ensures Valid()
      ensures name == value && phone == old(phone)
      ensures errors == old(errors) - {Name}
    {
      name := value;
      if Name in errors {
        errors := errors - {Name};
      }
    }

    /** Typing in the phone field stores the masked number and clears the phone error. */
    method HandlePhoneChange(value: string)
      requires Valid()
      modifies this
      ensures Valid()
      ensures phone == FormatPhone(value) && name == old(name)
      ensures errors == old(errors) - {Phone}
    {
      FormatPhoneIdempotent(value);
      phone := FormatPhone(value);
      if Phone in errors {
        errors := errors - {Phone};
      }
    }

    /**
     * Submitting: when a check fails the errors found replace those on show and
     * nothing is sent; otherwise the name, untrimmed, and the masked phone are
     * handed on and the errors are left as they were.
     */
    method HandleSubmit() returns (sent: Option<(string, string)>)
      requires Valid()
      modifies this
      ensures Valid()
      ensures name == old(name) && phone == old(phone)
      ensures sent.Some? <==> SubmitErrors(name, phone) == map[]
      ensures sent.Some? ==> sent.value == (name, phone) && errors == old(errors)
      ensures sent.None? ==> errors == SubmitErrors(name, phone)
    {
      var found := SubmitErrors(name, phone);
      if found != map[] {
        errors := found;
        sent := None;
      } else {
        sent := Some((name, phone));
      }
    }
  }
}
