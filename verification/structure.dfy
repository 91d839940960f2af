/**
 A postcode taken apart along the pattern: which alternative it is, its
 head (everything before the join point), the optional separator at the
 join point, and its tail. `WellFormed` says which parts each alternative
 allows; `Render` writes the parts back out as a string. This is the
 generative reading of the pattern, proved equal to `UKPattern.ValidUK`
 in module `Parsing`.
 */
module Structure {
  import opened Chars
  import opened UKPattern

  /** The seven top-level alternatives of the pattern, in its order. */
  datatype Form = Standard | Forces | Territory | Short | GeCx | Girobank | Santa

  /** What stands at the join point: nothing, a space, or (alternative 3 only) a hyphen. */
  datatype Separator = NoSeparator | Space | Hyphen {
    function Text(): (t: string)
      ensures |t| <= 1
      ensures forall i :: 0 <= i < |t| ==> IsSeparator(t[i])
      ensures NoSeparator? <==> t == []
    {
      match this
      case NoSeparator => ""
      case Space => " "
      case Hyphen => "-"
    }
  }

  datatype Parsed = Parsed(form: Form, head: string, sep: Separator, tail: string)

  /** The hyphen belongs to alternative 3 only; every other join admits just a space. */
  predicate SeparatorAllowed(form: Form, sep: Separator) {
    sep.Hyphen? ==> form.Territory?
  }

  /** The parts each alternative admits. */
  predicate WellFormed(p: Parsed) {
    && SeparatorAllowed(p.form, p.sep)
    && match p.form
       case Standard => IsOutward(p.head) && IsInward(p.tail)
       case Forces => p.head == "BFPO" && IsForcesNumber(p.tail)
       case Territory => IsTerritoryPrefix(p.head) && |p.tail| == 4 && AllDigits(p.tail)
       case Short => IsLetterPair(p.head) && |p.tail| == 2 && AllDigits(p.tail)
       case GeCx => p.head == "GE" && p.tail == "CX"
       case Girobank => p.head == "GIR" && p.tail == "0AA"
       case Santa => p.head == "SAN" && p.tail == "TA1"
  }

  function Render(p: Parsed): (s: string)
    ensures |s| == |p.head| + |p.sep.Text()| + |p.tail|
  {
    p.head + p.sep.Text() + p.tail
  }

  /** An outward code is 2 to 4 characters from `[A-Z0-9]`. */
  lemma OutwardShape(o: string)
    requires IsOutward(o)
    ensures 2 <= |o| <= 4
    ensures forall i :: 0 <= i < |o| ==> IsUpperOrDigit(o[i])
  {
    if IsStandardOutward(o) {
      if |o| >= 2 && IsArea(o[..|o| - 1]) && IsDigit(o[|o| - 1]) {
        assert forall i :: 0 <= i < |o| - 1 ==> o[..|o| - 1][i] == o[i];
      } else {
        assert forall i :: 0 <= i < |o| - 2 ==> o[..|o| - 2][i] == o[i];
      }
    } else {
      assert |o| == 4;
      assert forall i :: 1 <= i < 4 ==> o[1..][i - 1] == o[i];
    }
  }

  /** Head and tail are drawn from `[A-Z0-9]`, with lengths fixed by the alternative. */
  lemma PartsShape(p: Parsed)
    requires WellFormed(p)
    ensures 2 <= |p.head| <= 4 && 1 <= |p.tail| <= 4
    ensures forall i :: 0 <= i < |p.head| ==> IsUpperOrDigit(p.head[i])
    ensures forall i :: 0 <= i < |p.tail| ==> IsUpperOrDigit(p.tail[i])
  {
    match p.form
    case Standard =>
      OutwardShape(p.head);
      assert forall i :: 1 <= i < 3 ==> p.tail[1..][i - 1] == p.tail[i];
    case Forces =>
    case Territory =>
      if |p.head| == 3 && p.head[..2] == "KY" {
        assert p.head[0] == 'K' && p.head[1] == 'Y';
      }
    case Short =>
    case GeCx =>
    case Girobank =>
    case Santa =>
  }

  /** An accepted postcode is 4 to 9 characters long. */
  lemma RenderLength(p: Parsed)
    requires WellFormed(p)
    ensures 4 <= |Render(p)| <= 9
  {
    PartsShape(p);
    match p.form
    case Standard =>
      if IsStandardOutward(p.head) {
      } else {
      }
    case Forces =>
    case Territory =>
    case Short =>
    case GeCx =>
    case Girobank =>
    case Santa =>
  }

  /** The only separator of a rendered postcode, if any, sits at the join point. */
  lemma RenderSeparators(p: Parsed)
    requires WellFormed(p)
    ensures forall i :: 0 <= i < |Render(p)| ==> IsPostcodeChar(Render(p)[i])
    ensures forall i :: 0 <= i < |Render(p)| && IsSeparator(Render(p)[i]) ==>
              i == |p.head| && !p.sep.NoSeparator?
    ensures forall i :: 0 <= i < |Render(p)| && Render(p)[i] == '-' ==>
              p.form.Territory? && i == |Render(p)| - 5
  {
    PartsShape(p);
    var s := Render(p);
    var t := p.sep.Text();
    forall i | 0 <= i < |s|
      ensures IsPostcodeChar(s[i])
      ensures IsSeparator(s[i]) ==> i == |p.head| && !p.sep.NoSeparator?
      ensures s[i] == '-' ==> p.form.Territory? && i == |s| - 5
    {
      if i < |p.head| {
        assert s[i] == p.head[i];
      } else if i < |p.head| + |t| {
        assert s[i] == t[i - |p.head|];
        if s[i] == '-' {
          assert p.sep.Hyphen?;
        }
      } else {
        assert s[i] == p.tail[i - |p.head| - |t|];
      }
    }
  }

  /** A rendered postcode is free of separators exactly when it was built without one. */
  lemma SeparatorFreeIff(p: Parsed)
    requires WellFormed(p)
    ensures SeparatorFree(Render(p)) <==> p.sep.NoSeparator?
  {
    RenderSeparators(p);
    if !p.sep.NoSeparator? {
      assert Render(p)[|p.head|] == p.sep.Text()[0];
    }
  }

  /** Dropping the separator of a well-formed postcode leaves a well-formed postcode. */
  lemma DropSeparator(p: Parsed)
    requires WellFormed(p)
    ensures WellFormed(p.(sep := NoSeparator))
    ensures Render(p.(sep := NoSeparator)) == p.head + p.tail
  {
  }
}
