/**
 An index-scanning checker for the UK postcode pattern. It reads the
 string by position, never building substrings, and is proved to decide
 exactly `UKPattern.ValidUK`.
 */
module Scanner {
  import opened Chars
  import opened UKPattern

  /** Whether every character of `s[lo..hi]` is in `[A-Z]`. */
  method ScanUpper(s: string, lo: nat, hi: nat) returns (b: bool)
    requires lo <= hi <= |s|
    ensures b == AllUpper(s[lo..hi])
  {
    var i := lo;
    while i < hi
      invariant lo <= i <= hi
      invariant forall k :: lo <= k < i ==> IsUpper(s[k])
    {
      if !IsUpper(s[i]) {
        assert s[lo..hi][i - lo] == s[i];
        return false;
      }
      i := i + 1;
    }
    assert forall k :: 0 <= k < hi - lo ==> s[lo..hi][k] == s[lo + k];
    return true;
  }

  /** Whether every character of `s[lo..hi]` is in `[0-9]`. */
  method ScanDigits(s: string, lo: nat, hi: nat) returns (b: bool)
    requires lo <= hi <= |s|
    ensures b == AllDigits(s[lo..hi])
  {
    var i := lo;
    while i < hi
      invariant lo <= i <= hi
      invariant forall k :: lo <= k < i ==> IsDigit(s[k])
    {
      if !IsDigit(s[i]) {
        assert s[lo..hi][i - lo] == s[i];
        return false;
      }
      i := i + 1;
    }
    assert forall k :: 0 <= k < hi - lo ==> s[lo..hi][k] == s[lo + k];
    return true;
  }

  /** Whether the fixed word `w` occurs in `s` at position `lo`. */
  method ScanWord(s: string, lo: nat, w: string) returns (b: bool)
    requires lo <= |s|
    ensures b <==> lo + |w| <= |s| && s[lo..lo + |w|] == w
  {
    if lo + |w| > |s| {
      return false;
    }
    var i := 0;
    while i < |w|
      invariant 0 <= i <= |w|
      invariant forall k :: 0 <= k < i ==> s[lo + k] == w[k]
    {
      if s[lo + i] != w[i] {
        assert s[lo..lo + |w|][i] == s[lo + i];
        return false;
      }
      i := i + 1;
    }
    assert s[lo..lo + |w|] == w;
    return true;
  }

  /** Whether `s[lo..hi]` is an outward code `[A-Z]{1,2}[0-9][A-Z0-9]?` or one of the special codes. */
  method ScanOutward(s: string, lo: nat, hi: nat) returns (b: bool)
    requires lo <= hi <= |s|
    ensures b == IsOutward(s[lo..hi])
  {
    ghost var o := s[lo..hi];
    var n := hi - lo;
    assert forall k :: 0 <= k < n ==> o[k] == s[lo + k];
    b := false;
    if n >= 2 && n - 1 <= 2 && IsDigit(s[hi - 1]) {
      assert o[..|o| - 1] == s[lo..hi - 1] && o[|o| - 1] == s[hi - 1];
      b := ScanUpper(s, lo, hi - 1);
    }
    if !b && n >= 3 && n - 2 <= 2 && IsDigit(s[hi - 2]) && IsUpperOrDigit(s[hi - 1]) {
      assert o[..|o| - 2] == s[lo..hi - 2] && o[|o| - 2] == s[hi - 2] && o[|o| - 1] == s[hi - 1];
      b := ScanUpper(s, lo, hi - 2);
    }
    assert b == IsStandardOutward(o);
    if !b && n == 4 {
      b := ScanSpecialOutward(s, lo);
    }
  }

  /** Whether the four characters at `lo` are one of the overseas-territory outward codes. */
  method ScanSpecialOutward(s: string, lo: nat) returns (b: bool)
    requires lo + 4 <= |s|
    ensures b == IsSpecialOutward(s[lo..lo + 4])
  {
    ghost var o := s[lo..lo + 4];
    var codes := ["ASCN", "STHL", "TDCU", "BBND", "PCRN", "TKCA"];
    var j := 0;
    b := false;
    while j < |codes| && !b
      invariant 0 <= j <= |codes|
      invariant b <==> exists k :: 0 <= k < j && o == codes[k]
    {
      b := ScanWord(s, lo, codes[j]);
      j := j + 1;
    }
    assert codes[0] == "ASCN" && codes[1] == "STHL" && codes[2] == "TDCU";
    assert codes[3] == "BBND" && codes[4] == "PCRN" && codes[5] == "TKCA";
    assert b <==> o == "ASCN" || o == "STHL" || o == "TDCU" || o == "BBND" || o == "PCRN" || o == "TKCA";
    if !b && s[lo] in "BFS" {
      assert o[0] == s[lo] && o[1..] == s[lo + 1..lo + 4];
      b := ScanWord(s, lo + 1, "IQQ");
    } else if !b {
      assert o[0] == s[lo];
    }
  }

  /** Alternative 1: outward code, optional space, inward code. */
  method ScanStandard(s: string) returns (b: bool)
    ensures b == IsStandardForm(s)
  {
    var n := |s|;
    if n < 3 || !IsDigit(s[n - 3]) {
      return false;
    }
    var letters := ScanUpper(s, n - 2, n);
    assert s[n - 3..][0] == s[n - 3] && s[n - 3..][1..] == s[n - 2..n];
    if !letters {
      return false;
    }
    b := ScanOutward(s, 0, n - 3);
    assert s[..n - 3] == s[0..n - 3];
    if !b && n >= 4 && s[n - 4] == ' ' {
      assert s[..n - 3][..n - 4] == s[0..n - 4];
      b := ScanOutward(s, 0, n - 4);
    }
  }

  /** Alternative 2: `BFPO`, optional space, one to four digits. */
  method ScanForces(s: string) returns (b: bool)
    ensures b == IsForcesForm(s)
  {
    var prefix := ScanWord(s, 0, "BFPO");
    if !prefix {
      return false;
    }
    ghost var d := s[4..];
    var start := 4;
    if |s| >= 5 && s[4] == ' ' {
      assert d[0] == ' ' && d[1..] == s[5..];
      start := 5;
    }
    var n := |s| - start;
    if n < 1 || n > 4 {
      b := false;
    } else {
      b := ScanDigits(s, start, |s|);
    }
    assert s[start..|s|] == s[start..];
    if start == 4 && |d| >= 1 {
      assert d[0] == s[4];
    }
  }

  /** Alternative 3: `KY[0-9]`, `MSR`, `VG` or `AI`, optional space or hyphen, four digits. */
  method ScanTerritory(s: string) returns (b: bool)
    ensures b == IsTerritoryForm(s)
  {
    var n := |s|;
    if n < 4 {
      return false;
    }
    var digits := ScanDigits(s, n - 4, n);
    if !digits {
      return false;
    }
    assert s[n - 4..] == s[n - 4..n];
    b := ScanTerritoryPrefix(s, n - 4);
    if !b && n >= 5 && IsSeparator(s[n - 5]) {
      assert s[..n - 4][..n - 5] == s[..n - 5];
      b := ScanTerritoryPrefix(s, n - 5);
    }
  }

  /** Whether `s[..hi]` is `KY[0-9]`, `MSR`, `VG` or `AI`. */
  method ScanTerritoryPrefix(s: string, hi: nat) returns (b: bool)
    requires hi <= |s|
    ensures b == IsTerritoryPrefix(s[..hi])
  {
    ghost var h := s[..hi];
    if hi == 3 {
      var ky := ScanWord(s, 0, "KY");
      assert h[..2] == s[0..2] && h[2] == s[2];
      b := (ky && IsDigit(s[2]));
      if !b {
        b := ScanWord(s, 0, "MSR");
        assert s[0..3] == h;
      }
    } else if hi == 2 {
      b := ScanWord(s, 0, "VG");
      if !b {
        b := ScanWord(s, 0, "AI");
      }
      assert s[0..2] == h;
    } else {
      b := false;
    }
  }

  /** Alternative 4: two letters, optional space, two digits. */
  method ScanShort(s: string) returns (b: bool)
    ensures b == IsShortForm(s)
  {
    var n := |s|;
    if n != 4 && n != 5 {
      return false;
    }
    var digits := ScanDigits(s, n - 2, n);
    var letters := ScanUpper(s, 0, 2);
    assert s[n - 2..] == s[n - 2..n] && s[..n - 2][..2] == s[0..2];
    b := digits && letters && (n == 4 || s[2] == ' ');
  }

  /** Alternatives 5 to 7: `head ?tail` for two fixed words. */
  method ScanJoinedLiteral(s: string, head: string, tail: string) returns (b: bool)
    ensures b == IsJoinedLiteral(s, head, tail)
  {
    var h := ScanWord(s, 0, head);
    if !h {
      b := false;
    } else if |s| == |head| + |tail| {
      b := ScanWord(s, |head|, tail);
      assert b ==> s == s[..|head|] + s[|head|..|head| + |tail|];
    } else if |s| == |head| + 1 + |tail| && s[|head|] == ' ' {
      b := ScanWord(s, |head| + 1, tail);
      assert b ==> s == s[..|head|] + [s[|head|]] + s[|head| + 1..|head| + 1 + |tail|];
    } else {
      b := false;
    }
  }

  /** Decides the whole pattern by trying each alternative in turn. */
  method IsValid(s: string) returns (b: bool)
    ensures b == ValidUK(s)
  {
    b := ScanStandard(s);
    if b { return; }
    b := ScanForces(s);
    if b { return; }
    b := ScanTerritory(s);
    if b { return; }
    b := ScanShort(s);
    if b { return; }
    b := ScanJoinedLiteral(s, "GE", "CX");
    if b { return; }
    b := ScanJoinedLiteral(s, "GIR", "0AA");
    if b { return; }
    b := ScanJoinedLiteral(s, "SAN", "TA1");
  }
}
