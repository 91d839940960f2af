/**
 Properties of the language the UK postcode pattern accepts: its length
 bounds, its alphabet, where a separator may stand and that it is always
 optional, that each accepted string matches exactly one alternative, and
 how the British Forces numbers are bounded. Most are proved on the
 structured view (`Structure.Parsed`) and carried over with `Parse`.
 */
module Properties {
  import opened Chars
  import opened UKPattern
  import opened Structure
  import opened Parsing

  /** An accepted postcode is between 4 (`AB12`, `GECX`) and 9 (`BFPO 1234`) characters long. */
  lemma LengthBounds(s: string)
    requires ValidUK(s)
    ensures 4 <= |s| <= 9
  {
    RenderLength(Parse(s).value);
  }

  /** An accepted postcode uses only `[A-Z0-9]`, the space and the hyphen. */
  lemma Alphabet(s: string)
    requires ValidUK(s)
    ensures forall i :: 0 <= i < |s| ==> IsPostcodeChar(s[i])
  {
    RenderSeparators(Parse(s).value);
  }

  /** A string holding any character outside that alphabet is rejected. */
  lemma RejectsForeignChar(s: string, i: nat)
    requires i < |s| && !IsPostcodeChar(s[i])
    ensures !ValidUK(s)
  {
    if ValidUK(s) {
      Alphabet(s);
    }
  }

  /** Matching is case-sensitive: a string with a lower-case letter is never accepted. */
  lemma RejectsLowerCase(s: string, i: nat)
    requires i < |s| && 'a' <= s[i] <= 'z'
    ensures !ValidUK(s)
  {
    RejectsForeignChar(s, i);
  }

  /**
   An accepted postcode holds at most one separator; a hyphen occurs only in
   the territory alternative, immediately before its four digits.
   */
  lemma Separators(s: string)
    requires ValidUK(s)
    ensures forall i, j :: 0 <= i < j < |s| && IsSeparator(s[i]) ==> !IsSeparator(s[j])
    ensures forall i :: 0 <= i < |s| && s[i] == '-' ==> IsTerritoryForm(s) && i == |s| - 5
  {
    var p := Parse(s).value;
    RenderSeparators(p);
    if p.form.Territory? {
      RenderTerritory(p);
    }
  }

  /** In particular two consecutive spaces are never accepted. */
  lemma RejectsDoubleSpace(s: string, i: nat)
    requires i + 1 < |s| && s[i] == ' ' && s[i + 1] == ' '
    ensures !ValidUK(s)
  {
    if ValidUK(s) {
      Separators(s);
      assert IsSeparator(s[i]) && IsSeparator(s[i + 1]);
    }
  }

  /** Deleting the separator of an accepted postcode leaves an accepted postcode. */
  lemma SeparatorRemovable(s: string, i: nat)
    requires ValidUK(s) && i < |s| && IsSeparator(s[i])
    ensures ValidUK(s[..i] + s[i + 1..])
  {
    var p := Parse(s).value;
    RenderSeparators(p);
    assert i == |p.head| && |p.sep.Text()| == 1;
    assert s[..i] == p.head;
    assert s[i + 1..] == p.tail;
    DropSeparator(p);
    ParseRender(p.(sep := NoSeparator));
  }

  /**
   Conversely a separator-free accepted postcode has a join point where a
   space may be inserted, so the space is optional in both directions.
   */
  lemma SpaceInsertable(s: string)
    requires ValidUK(s) && SeparatorFree(s)
    ensures exists k :: 0 < k < |s| && ValidUK(s[..k] + " " + s[k..])
  {
    var p := Parse(s).value;
    var k := |p.head|;
    PartsShape(p);
    SeparatorFreeIff(p);
    var q := p.(sep := Space);
    assert s[..k] == p.head && s[k..] == p.tail;
    assert Render(q) == s[..k] + " " + s[k..];
    ParseRender(q);
  }

  /** Every accepted string matches exactly one of the seven alternatives. */
  lemma ExactlyOneAlternative(s: string)
    ensures ValidUK(s) <==> AlternativeCount(s) == 1
  {
    AlternativesDisjoint(s);
  }

  /**
   A string of the first alternative ends in an inward code (a digit and
   two letters); before it, after dropping the optional space, stands a
   2-to-4 character outward code.
   */
  lemma StandardFormParts(s: string)
    requires IsStandardForm(s)
    ensures IsDigit(s[|s| - 3]) && IsUpper(s[|s| - 2]) && IsUpper(s[|s| - 1])
    ensures exists o :: IsOutward(o) && 2 <= |o| <= 4 &&
                        (s == o + s[|s| - 3..] || s == o + " " + s[|s| - 3..])
  {
    var p := ParseStandard(s);
    OutwardShape(p.head);
    assert s[|s| - 3..] == p.tail;
    assert p.tail[1..][0] == s[|s| - 2] && p.tail[1..][1] == s[|s| - 1];
  }

  /** A string starting with `BFPO` is accepted only by the British Forces alternative. */
  lemma ForcesPrefixOnly(s: string)
    requires |s| >= 4 && s[..4] == "BFPO"
    ensures ValidUK(s) <==> IsForcesForm(s)
    ensures ValidUK(s) ==> AlternativeCount(s) == 1
  {
    assert s[0] == 'B' && s[2] == 'P';
    StandardSignature(s);
    TerritorySignature(s);
    ShortSignature(s);
    AlternativesDisjoint(s);
    if |s| == 4 {
      assert s == "BFPO";
    }
  }

  /**
   `BFPO` followed by digits, with or without a space, is accepted exactly
   when there are 1 to 4 digits, and then only by the British Forces
   alternative.
   */
  lemma ForcesNumbers(d: string, spaced: bool)
    requires AllDigits(d)
    ensures var s := if spaced then "BFPO " + d else "BFPO" + d;
            && (ValidUK(s) <==> 1 <= |d| <= 4)
            && (ValidUK(s) ==> IsForcesForm(s) && AlternativeCount(s) == 1)
  {
    var rest := if spaced then " " + d else d;
    var s := "BFPO" + rest;
    assert s == if spaced then "BFPO " + d else "BFPO" + d;
    assert s[..4] == "BFPO" && s[4..] == rest;
    ForcesPrefixOnly(s);
    if spaced {
      assert rest[1..] == d;
      assert !IsForcesNumber(rest);
    } else if |d| >= 1 {
      assert rest[0] == d[0];
    }
  }
}
