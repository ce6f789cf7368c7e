/**
 * The add-on eligibility modal: monthly sales typed with thousands separators,
 * a Google review rating and the years in business, checked on submit.
 */
module Eligibility {
  import opened Wrappers
  import opened Text

  /** The three fields, which are also the keys of the error map. */
  datatype EligibilityField = MonthlySales | GoogleRating | YearsInBusiness

  /** What a successful submit hands on: the three parsed numbers. */
  datatype EligibilityData = EligibilityData(monthlySales: int, googleRating: real, yearsInBusiness: int)

  const SalesRequired := "Total monthly sales is required"
  const SalesInvalid := "Please enter a valid amount"
  const RatingRequired := "Google review rating is required"
  const RatingInvalid := "Rating must be between 0 and 5"
  const YearsRequired := "Years in business is required"
  const YearsInvalid := "Please enter a valid number"

  /**
   * The sales field's mask: nothing when no digit was typed, otherwise the number
   * the digits spell, written in en-US style with a comma between thousands.
   */
  function FormatCurrency(value: string): (r: string)
    ensures r == [] <==> DigitsOf(value) == []
  {
    var d := DigitsOf(value);
    if d == [] then [] else
      GroupLength(Decimal(DecimalValue(d)));
      Group(Decimal(DecimalValue(d)))
  }

  /** The amount a sales text stands for once its commas are dropped, as `parseInt` reads it. */
  function SalesValue(sales: string): Option<int> {
    ParseInt(Keep(sales, NotComma))
  }

  /**
   * The shape of a masked amount: digits and commas only, commas exactly at every
   * fourth place from the right, so a leading group of one to three digits and
   * then groups of three; without the commas it is the canonical numeral of the
   * number typed, so leading zeros are gone.
   */
  lemma FormatCurrencyShape(value: string)
    requires DigitsOf(value) != []
    ensures var r := FormatCurrency(value);
      && (forall p | 0 <= p < |r| :: r[p] == ',' || IsDigit(r[p]))
      && (forall p | 0 <= p < |r| :: r[p] == ',' <==> (|r| - p) % 4 == 0)
      && 1 <= |r| % 4 <= 3
      && Canonical(Keep(r, NotComma))
      && DecimalValue(Keep(r, NotComma)) == DecimalValue(DigitsOf(value))
  {
    var n := Decimal(DecimalValue(DigitsOf(value)));
    GroupCommas(n);
    GroupUngroup(n);
  }

  /** Masking a masked amount changes nothing. */
  lemma FormatCurrencyIdempotent(value: string)
    ensures FormatCurrency(FormatCurrency(value)) == FormatCurrency(value)
  {
    var d := DigitsOf(value);
    if d != [] {
      var n := Decimal(DecimalValue(d));
      var r := Group(n);
      GroupCommas(n);
      GroupUngroup(n);
      KeepAgree(r, IsDigit, NotComma);
      assert DigitsOf(r) == n;
      DecimalOfValue(n);
    }
  }

  /** The amount of a masked sales text is the number its digits spell. */
  lemma SalesRoundTrip(value: string)
    requires DigitsOf(value) != []
    ensures SalesValue(FormatCurrency(value)) == Some(DecimalValue(DigitsOf(value)))
  {
    var n := Decimal(DecimalValue(DigitsOf(value)));
    GroupUngroup(n);
    ParseIntOfDigits(n, []);
    assert n + [] == n;
  }

  /**
   * The errors found on submit. Each field is "required" when it is the empty
   * string; otherwise the sales are rejected unless they read as a positive
   * whole number, the rating unless it reads as a number in [0, 5], and the years
   * unless they read as a whole number that is not negative.
   */
  function SubmitErrors(sales: string, rating: string, years: string): (r: map<EligibilityField, string>)
    ensures MonthlySales in r <==> sales == [] || SalesValue(sales).None? || SalesValue(sales).value <= 0
    ensures MonthlySales in r ==> r[MonthlySales] == if sales == [] then SalesRequired else SalesInvalid
    ensures GoogleRating in r <==>
      rating == [] || ParseFloat(rating).None? || !(0.0 <= ParseFloat(rating).value <= 5.0)
    ensures GoogleRating in r ==> r[GoogleRating] == if rating == [] then RatingRequired else RatingInvalid
    ensures YearsInBusiness in r <==> years == [] || ParseInt(years).None? || ParseInt(years).value < 0
    ensures YearsInBusiness in r ==> r[YearsInBusiness] == if years == [] then YearsRequired else YearsInvalid
  {
    var salesValue := SalesValue(sales);
    var ratingValue := ParseFloat(rating);
    var yearsValue := ParseInt(years);
    var e1: map<EligibilityField, string> :=
      if sales == [] then map[MonthlySales := SalesRequired]
      else if salesValue.None? || salesValue.value <= 0 then map[MonthlySales := SalesInvalid]
      else map[];
    var e2 :=
      if rating == [] then e1[GoogleRating := RatingRequired]
      else if ratingValue.None? || ratingValue.value < 0.0 || ratingValue.value > 5.0 then e1[GoogleRating := RatingInvalid]
      else e1;
    if years == [] then e2[YearsInBusiness := YearsRequired]
    else if yearsValue.None? || yearsValue.value < 0 then e2[YearsInBusiness := YearsInvalid]
    else e2
  }

  /** Through the mask, sales pass exactly when the digits typed spell a positive number. */
  lemma MaskedSalesAccepted(value: string, rating: string, years: string)
    ensures MonthlySales !in SubmitErrors(FormatCurrency(value), rating, years) <==>
      DigitsOf(value) != [] && DecimalValue(DigitsOf(value)) > 0
  {
    if DigitsOf(value) != [] {
      SalesRoundTrip(value);
    }
  }

  /**
   * Years are read up to the first character that is not a digit: a whole number
   * followed by a fraction, such as "2.5", passes as its whole part.
   */
  lemma YearsPrefix(sales: string, rating: string, ds: string, frac: string)
    requires AllDigits(ds) && |ds| >= 1
    ensures ParseInt(ds + "." + frac) == Some(DecimalValue(ds))
    ensures YearsInBusiness !in SubmitErrors(sales, rating, ds + "." + frac)
  {
    WholePart(ds, frac);
  }

  /** `parseInt` stops at the decimal point. */
  lemma WholePart(ds: string, frac: string)
    requires AllDigits(ds) && |ds| >= 1
    ensures ParseInt(ds + "." + frac) == Some(DecimalValue(ds))
  {
    ParseIntOfDigits(ds, "." + frac);
    assert ds + "." + frac == ds + ("." + frac);
  }

  /** A minus sign before a non-zero number, such as "-1", fails the years check; "-0" reads as 0 and passes. */
  lemma YearsNegative(sales: string, rating: string, ds: string)
    requires AllDigits(ds) && |ds| >= 1
    ensures DecimalValue(ds) > 0 ==> YearsInBusiness in SubmitErrors(sales, rating, "-" + ds)
    ensures DecimalValue(ds) == 0 ==> YearsInBusiness !in SubmitErrors(sales, rating, "-" + ds)
  {
    var n := "-" + ds;
    assert n[1..] == ds + [];
    ParseIntOfNegated(ds, [], n);
  }

  /** With no error collected the three texts read as numbers inside their ranges. */
  lemma NoErrors(sales: string, rating: string, years: string)
    requires SubmitErrors(sales, rating, years) == map[]
    ensures SalesValue(sales).Some? && SalesValue(sales).value > 0
    ensures ParseFloat(rating).Some? && 0.0 <= ParseFloat(rating).value <= 5.0
    ensures ParseInt(years).Some? && ParseInt(years).value >= 0
  {
    var r := SubmitErrors(sales, rating, years);
    assert MonthlySales !in r && GoogleRating !in r && YearsInBusiness !in r;
  }

  /** The modal's state: the three inputs and the errors on show. */
  class EligibilityForm {
    var monthlySales: string
    var googleRating: string
    var yearsInBusiness: string
    var errors: map<EligibilityField, string>

    /** The sales field always shows a masked amount. */
    predicate Valid()
      reads this
    {
      monthlySales == FormatCurrency(monthlySales)
    }

    constructor()
      ensures Valid()
      ensures monthlySales == "" && googleRating == "" && yearsInBusiness == "" && errors == map[]
    {
      monthlySales := "";
      googleRating := "";
      yearsInBusiness := "";
      errors := map[];
    }

    /** Typing in the sales field stores the masked amount and clears the sales error. */
    method HandleMonthlySalesChange(value: string)
      requires Valid()
      modifies this
      ensures Valid()
      ensures monthlySales == FormatCurrency(value)
      ensures googleRating == old(googleRating) && yearsInBusiness == old(yearsInBusiness)
      ensures errors == old(errors) - {MonthlySales}
    {
      FormatCurrencyIdempotent(value);
      monthlySales := FormatCurrency(value);
      if MonthlySales in errors {
        errors := errors - {MonthlySales};
      }
    }

    /** Typing in the rating field stores the text and clears the rating error. */
    method HandleGoogleRatingChange(value: string)
      requires Valid()
      modifies this
      ensures Valid()
      ensures googleRating == value
      ensures monthlySales == old(monthlySales) && yearsInBusiness == old(yearsInBusiness)
      ensures errors == old(errors) - {GoogleRating}
    {
      googleRating := value;
      if GoogleRating in errors {
        errors := errors - {GoogleRating};
      }
    }

    /** Typing in the years field stores the text and clears the years error. */
    method HandleYearsInBusinessChange(value: string)
      requires Valid()
      modifies this
      ensures Valid()
      ensures yearsInBusiness == value
      ensures monthlySales == old(monthlySales) && googleRating == old(googleRating)
      ensures errors == old(errors) - {YearsInBusiness}
    {
      yearsInBusiness := value;
      if YearsInBusiness in errors {
        errors := errors - {YearsInBusiness};
      }
    }

    /**
     * Submitting: when a check fails the errors found replace those on show and
     * nothing is sent; otherwise the three parsed numbers are handed on and the
     * errors are left as they were.
     */
    method HandleSubmit() returns (sent: Option<EligibilityData>)
      requires Valid()
      modifies this
      ensures Valid()
      ensures monthlySales == old(monthlySales) && googleRating == old(googleRating)
      ensures yearsInBusiness == old(yearsInBusiness)
      ensures sent.Some? <==> SubmitErrors(monthlySales, googleRating, yearsInBusiness) == map[]
      ensures sent.Some? ==> errors == old(errors)
      ensures sent.Some? ==> && Some(sent.value.monthlySales) == SalesValue(monthlySales)
                             && sent.value.monthlySales > 0
                             && Some(sent.value.googleRating) == ParseFloat(googleRating)
                             && 0.0 <= sent.value.googleRating <= 5.0
                             && Some(sent.value.yearsInBusiness) == ParseInt(yearsInBusiness)
                             && sent.value.yearsInBusiness >= 0
      ensures sent.None? ==> errors == SubmitErrors(monthlySales, googleRating, yearsInBusiness)
    {
      var found := SubmitErrors(monthlySales, googleRating, yearsInBusiness);
      if found != map[] {
        errors := found;
        sent := None;
      } else {
        NoErrors(monthlySales, googleRating, yearsInBusiness);
        var sales := SalesValue(monthlySales).value;
        var rating := ParseFloat(googleRating).value;
        var years := ParseInt(yearsInBusiness).value;
        sent := Some(EligibilityData(sales, rating, years));
      }
    }
  }
}
