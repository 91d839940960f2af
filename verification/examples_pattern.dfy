/**
 Concrete strings on both sides of the UK postcode pattern, including
 both length extremes and the special codes. Accepted strings are shown
 by building their parts and rendering them; rejected ones by the
 property that excludes them or by checking each alternative.
 */
module PatternExamples {
  import opened UKPattern
  import opened Structure
  import opened Parsing
  import opened Properties

  /** The London example, with and without its space. */
  lemma AcceptsLondonExample()
    ensures ValidUK("EC1A 1BB") && ValidUK("EC1A1BB")
  {
    var ec := Parsed(Standard, "EC1A", Space, "1BB");
    assert Render(ec) == "EC1A 1BB";
    assert Render(ec.(sep := NoSeparator)) == "EC1A1BB";
    ParseRender(ec);
    ParseRender(ec.(sep := NoSeparator));
  }

  /** The Feltham example, with and without its space. */
  lemma AcceptsFelthamExample()
    ensures ValidUK("TW13 4TA") && ValidUK("TW134TA")
  {
    var tw := Parsed(Standard, "TW13", Space, "4TA");
    assert Render(tw) == "TW13 4TA";
    assert Render(tw.(sep := NoSeparator)) == "TW134TA";
    ParseRender(tw);
    ParseRender(tw.(sep := NoSeparator));
  }

  /** A Llandudno example. */
  lemma AcceptsLlandudnoExample()
    ensures ValidUK("LL11 4BJ")
  {
    var ll := Parsed(Standard, "LL11", Space, "4BJ");
    assert Render(ll) == "LL11 4BJ";
    ParseRender(ll);
  }

  /** An overseas-territory outward code and a British Forces number. */
  lemma AcceptsOverseasExamples()
    ensures ValidUK("ASCN 1ZZ") && ValidUK("BFPO 1234")
  {
    var ascn := Parsed(Standard, "ASCN", Space, "1ZZ");
    var bfpo := Parsed(Forces, "BFPO", Space, "1234");
    assert Render(ascn) == "ASCN 1ZZ" && Render(bfpo) == "BFPO 1234";
    ParseRender(ascn);
    ParseRender(bfpo);
  }

  /** A territory code joined by a hyphen. */
  lemma AcceptsHyphenExample()
    ensures ValidUK("KY1-1234")
  {
    var ky := Parsed(Territory, "KY1", Hyphen, "1234");
    assert "KY1"[..2] == "KY";
    assert WellFormed(ky);
    assert Render(ky) == "KY1-1234";
    ParseRender(ky);
  }

  /** The literal codes and the shortest forms. */
  lemma AcceptsLiteralExamples()
    ensures ValidUK("GIR 0AA") && ValidUK("SAN TA1") && ValidUK("GE CX")
    ensures ValidUK("GECX") && ValidUK("AB12")
  {
    var ab := Parsed(Short, "AB", NoSeparator, "12");
    assert Render(ab) == "AB12";
    ParseRender(ab);
    assert IsGirobankForm("GIR 0AA") && IsSantaForm("SAN TA1");
    assert IsGeCxForm("GE CX") && IsGeCxForm("GECX");
  }

  /** `TW1344TA` has an extra digit: neither `TW134` nor `TW13 4`-style outward codes fit. */
  lemma RejectsExtraDigit()
    ensures !ValidUK("TW1344TA")
  {
    var s := "TW1344TA";
    assert s[..|s| - 3] == "TW134";
    assert !IsOutward("TW134");
    StandardSignature(s);
    ForcesSignature(s);
    TerritorySignature(s);
    ShortSignature(s);
  }

  /** `EC1A1B` ends before its inward code is complete. */
  lemma RejectsShortInward()
    ensures !ValidUK("EC1A1B")
  {
    var s := "EC1A1B";
    StandardSignature(s);
    ForcesSignature(s);
    TerritorySignature(s);
    ShortSignature(s);
  }

  /** `ECWRONG` is all letters. */
  lemma RejectsWord()
    ensures !ValidUK("ECWRONG")
  {
    var s := "ECWRONG";
    StandardSignature(s);
    ForcesSignature(s);
    TerritorySignature(s);
    ShortSignature(s);
  }

  /** Lower case, a doubled space, five Forces digits and the empty string are rejected. */
  lemma RejectsMalformed()
    ensures !ValidUK("ec1a 1bb") && !ValidUK("EC1A  1BB") && !ValidUK("BFPO 12345") && !ValidUK("")
  {
    RejectsLowerCase("ec1a 1bb", 0);
    RejectsDoubleSpace("EC1A  1BB", 4);
    ForcesNumbers("12345", true);
    assert "BFPO " + "12345" == "BFPO 12345";
    if ValidUK("") {
      LengthBounds("");
    }
  }
}
