/**
 Reading a string as a postcode: `Parse` finds the alternative a string
 matches and takes it apart at the join point. It succeeds exactly on the
 strings `ValidUK` accepts, and `Parse` and `Render` are inverse to each
 other, so the pattern and the structured view describe the same language.
 Because the seven alternatives are pairwise disjoint, the order in which
 `Parse` tries them does not matter.
 */
module Parsing {
  import opened Chars
  import opened UKPattern
  import opened Structure

  datatype Option<T> = None | Some(value: T)

  /** The separator standing at the end of a head candidate `h`, if one does. */
  function TrailingSeparator(h: string): Separator {
    if |h| >= 1 && h[|h| - 1] == ' ' then Space
    else if |h| >= 1 && h[|h| - 1] == '-' then Hyphen
    else NoSeparator
  }

  /** Takes apart a string of alternative 1 at its optional space. */
  function ParseStandard(s: string): (p: Parsed)
    requires IsStandardForm(s)
    ensures p.form.Standard? && WellFormed(p) && Render(p) == s
  {
    var o := s[..|s| - 3];
    if IsOutward(o) then Parsed(Standard, o, NoSeparator, s[|s| - 3..])
    else
      assert o[..|o| - 1] + " " + s[|s| - 3..] == s;
      Parsed(Standard, o[..|o| - 1], Space, s[|s| - 3..])
  }

  /** Takes apart a string of alternative 2 after `BFPO`. */
  function ParseForces(s: string): (p: Parsed)
    requires IsForcesForm(s)
    ensures p.form.Forces? && WellFormed(p) && Render(p) == s
  {
    var d := s[4..];
    if IsForcesNumber(d) then Parsed(Forces, "BFPO", NoSeparator, d)
    else
      assert "BFPO" + " " + d[1..] == s;
      Parsed(Forces, "BFPO", Space, d[1..])
  }

  /** Takes apart a string of alternative 3 at its optional space or hyphen. */
  function ParseTerritory(s: string): (p: Parsed)
    requires IsTerritoryForm(s)
    ensures p.form.Territory? && WellFormed(p) && Render(p) == s
  {
    var h := s[..|s| - 4];
    if IsTerritoryPrefix(h) then Parsed(Territory, h, NoSeparator, s[|s| - 4..])
    else
      assert h[..|h| - 1] + TrailingSeparator(h).Text() + s[|s| - 4..] == s;
      Parsed(Territory, h[..|h| - 1], TrailingSeparator(h), s[|s| - 4..])
  }

  /** Takes apart a string of alternative 4 at its optional space. */
  function ParseShort(s: string): (p: Parsed)
    requires IsShortForm(s)
    ensures p.form.Short? && WellFormed(p) && Render(p) == s
  {
    var h := s[..|s| - 2];
    if IsLetterPair(h) then Parsed(Short, h, NoSeparator, s[|s| - 2..])
    else
      assert h[..|h| - 1] + " " + s[|s| - 2..] == s;
      Parsed(Short, h[..|h| - 1], Space, s[|s| - 2..])
  }

  /** The words of the three literal alternatives 5 to 7. */
  predicate IsLiteralForm(form: Form, head: string, tail: string) {
    || (form == GeCx && head == "GE" && tail == "CX")
    || (form == Girobank && head == "GIR" && tail == "0AA")
    || (form == Santa && head == "SAN" && tail == "TA1")
  }

  /** Takes apart `head ?tail` for one of the three literal alternatives. */
  function ParseLiteral(s: string, form: Form, head: string, tail: string): (p: Parsed)
    requires IsLiteralForm(form, head, tail)
    requires IsJoinedLiteral(s, head, tail)
    ensures p.form == form && WellFormed(p) && Render(p) == s
  {
    if |s| == |head| + |tail| then Parsed(form, head, NoSeparator, tail)
    else Parsed(form, head, Space, tail)
  }

  /**
   Reads a string as a postcode: `Some` of its parts when the pattern
   accepts it, `None` when it does not.
   */
  function Parse(s: string): (r: Option<Parsed>)
    ensures r.Some? <==> ValidUK(s)
    ensures r.Some? ==> WellFormed(r.value) && Render(r.value) == s
  {
    if ValidUK(s) then Some(ParseValid(s)) else None
  }

  function ParseValid(s: string): (p: Parsed)
    requires ValidUK(s)
    ensures WellFormed(p) && Render(p) == s
  {
    if IsStandardForm(s) then ParseStandard(s)
    else if IsForcesForm(s) then ParseForces(s)
    else if IsTerritoryForm(s) then ParseTerritory(s)
    else if IsShortForm(s) then ParseShort(s)
    else if IsGeCxForm(s) then ParseLiteral(s, GeCx, "GE", "CX")
    else if IsGirobankForm(s) then ParseLiteral(s, Girobank, "GIR", "0AA")
    else ParseLiteral(s, Santa, "SAN", "TA1")
  }

  /** Number of alternatives a string matches. */
  function AlternativeCount(s: string): nat {
    (if IsStandardForm(s) then 1 else 0)
    + (if IsForcesForm(s) then 1 else 0)
    + (if IsTerritoryForm(s) then 1 else 0)
    + (if IsShortForm(s) then 1 else 0)
    + (if IsGeCxForm(s) then 1 else 0)
    + (if IsGirobankForm(s) then 1 else 0)
    + (if IsSantaForm(s) then 1 else 0)
  }

  lemma StandardSignature(s: string)
    ensures IsStandardForm(s) ==>
              && 5 <= |s| <= 8
              && IsDigit(s[|s| - 3]) && IsUpper(s[|s| - 1])
              && s[..|s| - 3] != "GIR" && s[..|s| - 3] != "GIR "
  {
    if IsStandardForm(s) {
      var o := s[..|s| - 3];
      if IsOutward(o) {
        OutwardShape(o);
      } else {
        OutwardShape(o[..|o| - 1]);
      }
      assert s[|s| - 3..][0] == s[|s| - 3];
      assert s[|s| - 3..][1..][1] == s[|s| - 1];
      assert !IsOutward("GIR");
    }
  }

  lemma ForcesSignature(s: string)
    ensures IsForcesForm(s) ==>
              && 5 <= |s| <= 9
              && s[0] == 'B' && s[2] == 'P' && IsDigit(s[|s| - 1])
  {
    if IsForcesForm(s) {
      assert s[..4][0] == s[0] && s[..4][2] == s[2];
      var d := s[4..];
      if IsForcesNumber(d) {
        assert d[|d| - 1] == s[|s| - 1];
      } else {
        assert d[1..][|d| - 2] == s[|s| - 1];
      }
    }
  }

  lemma TerritorySignature(s: string)
    ensures IsTerritoryForm(s) ==>
              && 6 <= |s| <= 8
              && s[0] in "KMVA" && IsDigit(s[|s| - 1])
  {
    if IsTerritoryForm(s) {
      var h := s[..|s| - 4];
      assert s[|s| - 4..][3] == s[|s| - 1];
      var g := if IsTerritoryPrefix(h) then h else h[..|h| - 1];
      assert IsTerritoryPrefix(g) && g[0] == s[0];
      if |g| == 3 && g[..2] == "KY" {
        assert g[..2][0] == g[0];
      }
    }
  }

  lemma ShortSignature(s: string)
    ensures IsShortForm(s) ==>
              && 4 <= |s| <= 5
              && IsDigit(s[|s| - 1]) && (IsDigit(s[2]) || s[2] == ' ')
  {
    if IsShortForm(s) {
      assert s[|s| - 2..][1] == s[|s| - 1];
      if |s| == 4 {
        assert s[|s| - 2..][0] == s[2];
      }
    }
  }

  lemma LiteralSignatures(s: string)
    ensures IsGeCxForm(s) ==> 4 <= |s| <= 5 && s[0] == 'G' && s[|s| - 1] == 'X' && !IsDigit(s[|s| - 3])
    ensures IsGirobankForm(s) ==> 6 <= |s| <= 7 && s[0] == 'G' && s[|s| - 1] == 'A' && s[1] == 'I'
    ensures IsSantaForm(s) ==> 6 <= |s| <= 7 && s[0] == 'S' && s[|s| - 1] == '1'
  {
  }

  /** A string of alternative 1 matches no other alternative. */
  lemma StandardExcludesOthers(s: string)
    ensures IsStandardForm(s) ==>
              !IsForcesForm(s) && !IsTerritoryForm(s) && !IsShortForm(s)
              && !IsGeCxForm(s) && !IsGirobankForm(s) && !IsSantaForm(s)
  {
    StandardSignature(s);
    ForcesSignature(s);
    TerritorySignature(s);
    ShortSignature(s);
    LiteralSignatures(s);
  }

  /** Alternatives 2 to 7 exclude one another. */
  lemma OthersDisjoint(s: string)
    ensures IsForcesForm(s) ==>
              !IsTerritoryForm(s) && !IsShortForm(s) && !IsGeCxForm(s) && !IsGirobankForm(s) && !IsSantaForm(s)
    ensures IsTerritoryForm(s) ==>
              !IsShortForm(s) && !IsGeCxForm(s) && !IsGirobankForm(s) && !IsSantaForm(s)
    ensures IsShortForm(s) ==> !IsGeCxForm(s) && !IsGirobankForm(s) && !IsSantaForm(s)
    ensures IsGeCxForm(s) ==> !IsGirobankForm(s) && !IsSantaForm(s)
    ensures IsGirobankForm(s) ==> !IsSantaForm(s)
  {
    ForcesSignature(s);
    TerritorySignature(s);
    ShortSignature(s);
    LiteralSignatures(s);
  }

  /** No string matches two alternatives of the pattern. */
  lemma AlternativesDisjoint(s: string)
    ensures AlternativeCount(s) <= 1
  {
    StandardExcludesOthers(s);
    OthersDisjoint(s);
  }

  lemma RenderStandard(p: Parsed)
    requires WellFormed(p) && p.form.Standard?
    ensures IsStandardForm(Render(p))
  {
    var s := Render(p);
    var o := p.head + p.sep.Text();
    assert s[|s| - 3..] == p.tail;
    assert s[..|s| - 3] == o;
    if p.sep.Space? {
      assert o[..|o| - 1] == p.head;
    }
  }

  lemma RenderForces(p: Parsed)
    requires WellFormed(p) && p.form.Forces?
    ensures IsForcesForm(Render(p))
  {
    var s := Render(p);
    var d := p.sep.Text() + p.tail;
    assert s[..4] == p.head;
    assert s[4..] == d;
    if p.sep.Space? {
      assert d[1..] == p.tail;
    }
  }

  lemma RenderTerritory(p: Parsed)
    requires WellFormed(p) && p.form.Territory?
    ensures IsTerritoryForm(Render(p))
  {
    var s := Render(p);
    var h := p.head + p.sep.Text();
    assert s[|s| - 4..] == p.tail;
    assert s[..|s| - 4] == h;
    if !p.sep.NoSeparator? {
      assert h[..|h| - 1] == p.head;
    }
  }

  lemma RenderShort(p: Parsed)
    requires WellFormed(p) && p.form.Short?
    ensures IsShortForm(Render(p))
  {
    var s := Render(p);
    var h := p.head + p.sep.Text();
    assert s[|s| - 2..] == p.tail;
    assert s[..|s| - 2] == h;
    if p.sep.Space? {
      assert h[..|h| - 1] == p.head;
    }
  }

  /** A rendered postcode matches the alternative it was built as. */
  lemma RenderMatchesForm(p: Parsed)
    requires WellFormed(p)
    ensures p.form.Standard? ==> IsStandardForm(Render(p))
    ensures p.form.Forces? ==> IsForcesForm(Render(p))
    ensures p.form.Territory? ==> IsTerritoryForm(Render(p))
    ensures p.form.Short? ==> IsShortForm(Render(p))
    ensures p.form.GeCx? ==> IsGeCxForm(Render(p))
    ensures p.form.Girobank? ==> IsGirobankForm(Render(p))
    ensures p.form.Santa? ==> IsSantaForm(Render(p))
  {
    match p.form
    case Standard => RenderStandard(p);
    case Forces => RenderForces(p);
    case Territory => RenderTerritory(p);
    case Short => RenderShort(p);
    case GeCx =>
    case Girobank =>
    case Santa =>
  }

  lemma ParseStandardRender(p: Parsed)
    requires WellFormed(p) && p.form.Standard?
    ensures IsStandardForm(Render(p)) && ParseStandard(Render(p)) == p
  {
    RenderStandard(p);
    var s := Render(p);
    var o := p.head + p.sep.Text();
    assert s[..|s| - 3] == o && s[|s| - 3..] == p.tail;
    if p.sep.Space? {
      assert o[|o| - 1] == ' ';
      OutwardNoSpace(o);
      assert o[..|o| - 1] == p.head;
      assert ParseStandard(s) == Parsed(Standard, o[..|o| - 1], Space, s[|s| - 3..]);
    } else {
      assert o == p.head;
      assert ParseStandard(s) == Parsed(Standard, o, NoSeparator, s[|s| - 3..]);
    }
  }

  lemma ParseForcesRender(p: Parsed)
    requires WellFormed(p) && p.form.Forces?
    ensures IsForcesForm(Render(p)) && ParseForces(Render(p)) == p
  {
    RenderForces(p);
    var s := Render(p);
    var d := p.sep.Text() + p.tail;
    assert s[4..] == d;
    if p.sep.Space? {
      assert d[0] == ' ' && d[1..] == p.tail;
      assert !IsForcesNumber(d);
    }
  }

  lemma ParseTerritoryRender(p: Parsed)
    requires WellFormed(p) && p.form.Territory?
    ensures IsTerritoryForm(Render(p)) && ParseTerritory(Render(p)) == p
  {
    RenderTerritory(p);
    var s := Render(p);
    var h := p.head + p.sep.Text();
    assert s[..|s| - 4] == h && s[|s| - 4..] == p.tail;
    if !p.sep.NoSeparator? {
      assert h[|h| - 1] == p.sep.Text()[0];
      assert h[..|h| - 1] == p.head;
      assert !IsTerritoryPrefix(h);
    }
  }

  lemma ParseShortRender(p: Parsed)
    requires WellFormed(p) && p.form.Short?
    ensures IsShortForm(Render(p)) && ParseShort(Render(p)) == p
  {
    RenderShort(p);
    var s := Render(p);
    var h := p.head + p.sep.Text();
    assert s[..|s| - 2] == h && s[|s| - 2..] == p.tail;
    if p.sep.Space? {
      assert h[|h| - 1] == ' ';
      assert h[..|h| - 1] == p.head;
    }
  }

  /** A literal alternative, rendered, is taken apart into the same parts. */
  lemma ParseLiteralRender(p: Parsed)
    requires WellFormed(p) && (p.form.GeCx? || p.form.Girobank? || p.form.Santa?)
    ensures IsLiteralForm(p.form, p.head, p.tail)
    ensures IsJoinedLiteral(Render(p), p.head, p.tail)
    ensures ParseLiteral(Render(p), p.form, p.head, p.tail) == p
  {
  }

  /** `ParseValid` takes apart each alternative with that alternative's own parser. */
  lemma ParseValidAgrees(s: string)
    ensures IsStandardForm(s) ==> ParseValid(s) == ParseStandard(s)
    ensures IsForcesForm(s) ==> ParseValid(s) == ParseForces(s)
    ensures IsTerritoryForm(s) ==> ParseValid(s) == ParseTerritory(s)
    ensures IsShortForm(s) ==> ParseValid(s) == ParseShort(s)
    ensures IsGeCxForm(s) ==> ParseValid(s) == ParseLiteral(s, GeCx, "GE", "CX")
    ensures IsGirobankForm(s) ==> ParseValid(s) == ParseLiteral(s, Girobank, "GIR", "0AA")
    ensures IsSantaForm(s) ==> ParseValid(s) == ParseLiteral(s, Santa, "SAN", "TA1")
  {
    StandardExcludesOthers(s);
    OthersDisjoint(s);
  }

  /** Every well-formed postcode is accepted by the pattern, and parsing it gives back its parts. */
  lemma ParseRender(p: Parsed)
    requires WellFormed(p)
    ensures ValidUK(Render(p))
    ensures Parse(Render(p)) == Some(p)
  {
    var s := Render(p);
    ParseValidAgrees(s);
    match p.form
    case Standard => ParseStandardRender(p);
    case Forces => ParseForcesRender(p);
    case Territory => ParseTerritoryRender(p);
    case Short => ParseShortRender(p);
    case GeCx => ParseLiteralRender(p);
    case Girobank => ParseLiteralRender(p);
    case Santa => ParseLiteralRender(p);
  }

  /** An outward code never ends in a space. */
  lemma OutwardNoSpace(o: string)
    requires |o| >= 1 && o[|o| - 1] == ' '
    ensures !IsOutward(o)
  {
    if IsOutward(o) {
      OutwardShape(o);
    }
  }

  /**
   The pattern's language is exactly the set of rendered well-formed
   postcodes.
   */
  lemma ValidUKIffRendered(s: string)
    ensures ValidUK(s) <==> exists p :: WellFormed(p) && Render(p) == s
  {
    if ValidUK(s) {
      var p := Parse(s).value;
      assert WellFormed(p) && Render(p) == s;
    }
    if exists p :: WellFormed(p) && Render(p) == s {
      var p :| WellFormed(p) && Render(p) == s;
      ParseRender(p);
    }
  }
}
