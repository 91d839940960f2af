/**
 The UK postcode grammar `Rules.UK` as a recognizer. The pattern is a
 choice of seven alternatives anchored at both ends; `ValidUK` accepts a
 string exactly when the whole string is one of them. Each alternative is
 "head, optional separator, tail": the tail has a fixed length in every
 alternative except the British Forces one, whose head is fixed instead,
 so each predicate splits the string at the known end and tries the head
 with and without one trailing separator.
 */
module UKPattern {
  import opened Chars

  /** `[A-Z]{1,2}`: the postcode area. */
  predicate IsArea(a: string) {
    1 <= |a| <= 2 && AllUpper(a)
  }

  /** `[A-Z]{1,2}[0-9][A-Z0-9]?`: an area, a district digit and an optional district letter or digit. */
  predicate IsStandardOutward(o: string) {
    || (|o| >= 2 && IsArea(o[..|o| - 1]) && IsDigit(o[|o| - 1]))
    || (|o| >= 3 && IsArea(o[..|o| - 2]) && IsDigit(o[|o| - 2]) && IsUpperOrDigit(o[|o| - 1]))
  }

  /** `ASCN|STHL|TDCU|BBND|[BFS]IQQ|PCRN|TKCA`: outward codes of overseas territories. */
  predicate IsSpecialOutward(o: string) {
    || o == "ASCN" || o == "STHL" || o == "TDCU" || o == "BBND"
    || (|o| == 4 && o[0] in "BFS" && o[1..] == "IQQ")
    || o == "PCRN" || o == "TKCA"
  }

  /** The outward part of the first alternative. */
  predicate IsOutward(o: string) {
    IsStandardOutward(o) || IsSpecialOutward(o)
  }

  /** `[0-9][A-Z]{2}`: the inward code, a sector digit and a two-letter unit. */
  predicate IsInward(i: string) {
    |i| == 3 && IsDigit(i[0]) && AllUpper(i[1..])
  }

  /** `[0-9]{1,4}`: a British Forces Post Office number. */
  predicate IsForcesNumber(d: string) {
    1 <= |d| <= 4 && AllDigits(d)
  }

  /** `KY[0-9]|MSR|VG|AI`: the territory prefixes that take a four-digit number. */
  predicate IsTerritoryPrefix(h: string) {
    || (|h| == 3 && h[..2] == "KY" && IsDigit(h[2]))
    || h == "MSR" || h == "VG" || h == "AI"
  }

  /** `[A-Z]{2}`. */
  predicate IsLetterPair(h: string) {
    |h| == 2 && AllUpper(h)
  }

  /** Alternative 1: `(outward) ?[0-9][A-Z]{2}`. */
  predicate IsStandardForm(s: string) {
    && |s| >= 3
    && IsInward(s[|s| - 3..])
    && var o := s[..|s| - 3];
       IsOutward(o) || (|o| >= 1 && o[|o| - 1] == ' ' && IsOutward(o[..|o| - 1]))
  }

  /** Alternative 2: `BFPO ?[0-9]{1,4}`. */
  predicate IsForcesForm(s: string) {
    && |s| >= 4
    && s[..4] == "BFPO"
    && var d := s[4..];
       IsForcesNumber(d) || (|d| >= 1 && d[0] == ' ' && IsForcesNumber(d[1..]))
  }

  /** Alternative 3: `(KY[0-9]|MSR|VG|AI)[ -]?[0-9]{4}`. */
  predicate IsTerritoryForm(s: string) {
    && |s| >= 4
    && AllDigits(s[|s| - 4..])
    && var h := s[..|s| - 4];
       IsTerritoryPrefix(h) || (|h| >= 1 && IsSeparator(h[|h| - 1]) && IsTerritoryPrefix(h[..|h| - 1]))
  }

  /** Alternative 4: `[A-Z]{2} ?[0-9]{2}`. */
  predicate IsShortForm(s: string) {
    && |s| >= 2
    && AllDigits(s[|s| - 2..])
    && var h := s[..|s| - 2];
       IsLetterPair(h) || (|h| >= 1 && h[|h| - 1] == ' ' && IsLetterPair(h[..|h| - 1]))
  }

  /** `head ?tail` for two fixed words. */
  predicate IsJoinedLiteral(s: string, head: string, tail: string) {
    s == head + tail || s == head + " " + tail
  }

  /** Alternative 5: `GE ?CX`. */
  predicate IsGeCxForm(s: string) {
    IsJoinedLiteral(s, "GE", "CX")
  }

  /** Alternative 6: `GIR ?0A{2}`, the Girobank code. */
  predicate IsGirobankForm(s: string) {
    IsJoinedLiteral(s, "GIR", "0AA")
  }

  /** Alternative 7: `SAN ?TA1`. */
  predicate IsSantaForm(s: string) {
    IsJoinedLiteral(s, "SAN", "TA1")
  }

  /** The whole pattern: the entire string is one of the seven alternatives. */
  predicate ValidUK(s: string) {
    || IsStandardForm(s)
    || IsForcesForm(s)
    || IsTerritoryForm(s)
    || IsShortForm(s)
    || IsGeCxForm(s)
    || IsGirobankForm(s)
    || IsSantaForm(s)
  }
}
