/**
 How the anchors of `Rules.UK` behave. The pattern is `^(...)$`: `^`
 pins the match to the start, the group matches some prefix of the input,
 and `$` must hold where that prefix ends. Python's `$` (without the
 MULTILINE flag) holds at the end of the string and also just before a
 newline that is the string's last character, so when the pattern is
 applied with `re.match` or `re.search` it accepts an accepted postcode
 followed by one `"\n"`. A whole-string match (`\Z` in place of `$`, or
 `re.fullmatch`) accepts exactly `ValidUK`.
 */
module Anchoring {
  import opened UKPattern
  import opened Properties
  import opened PatternExamples

  /** Where Python's `$` succeeds without MULTILINE: at the end, or before a final newline. */
  predicate DollarHoldsAt(s: string, k: nat) {
    k == |s| || (k + 1 == |s| && s[k] == '\n')
  }

  /** The group matches `s[..k]` and `$` holds at `k`: the pattern as written, applied with `re.match`. */
  predicate MatchesAsWritten(s: string) {
    exists k: nat :: k <= |s| && ValidUK(s[..k]) && DollarHoldsAt(s, k)
  }

  /** The group matches `s[..k]` and `k` is the end of the input: the intended whole-string match. */
  predicate MatchesWholeString(s: string) {
    exists k: nat :: k <= |s| && ValidUK(s[..k]) && k == |s|
  }

  /**
   As written, the pattern accepts exactly the accepted postcodes and the
   accepted postcodes followed by one newline.
   */
  lemma AsWrittenAcceptsTrailingNewline(s: string)
    ensures MatchesAsWritten(s) <==>
              ValidUK(s) || (|s| >= 1 && s[|s| - 1] == '\n' && ValidUK(s[..|s| - 1]))
  {
    if ValidUK(s) {
      assert s[..|s|] == s;
      assert DollarHoldsAt(s, |s|);
    }
    if |s| >= 1 && s[|s| - 1] == '\n' && ValidUK(s[..|s| - 1]) {
      assert DollarHoldsAt(s, |s| - 1);
    }
    if MatchesAsWritten(s) {
      var k: nat :| k <= |s| && ValidUK(s[..k]) && DollarHoldsAt(s, k);
      if k == |s| {
        assert s[..k] == s;
      }
    }
  }

  /** The input that shows it: a valid postcode with a trailing newline. */
  lemma TrailingNewlineExample()
    ensures MatchesAsWritten("EC1A 1BB\n") && !ValidUK("EC1A 1BB\n")
  {
    var s := "EC1A 1BB\n";
    assert s[..8] == "EC1A 1BB";
    AcceptsLondonExample();
    AsWrittenAcceptsTrailingNewline(s);
    RejectsForeignChar(s, 8);
  }

  /**
   The whole-string match accepts exactly `ValidUK`; in particular nothing
   may follow an accepted postcode, not even a newline.
   */
  lemma WholeStringMatchIsValidUK(s: string)
    ensures MatchesWholeString(s) <==> ValidUK(s)
    ensures !MatchesWholeString(s + "\n")
  {
    assert s[..|s|] == s;
    var t := s + "\n";
    assert t[..|t|] == t;
    assert t[|s|] == '\n';
    RejectsForeignChar(t, |s|);
  }
}
