# UK postcode pattern, modelled in Dafny

The `postcodelib` library holds a `Postcode` value and one piece of real
logic: the regular expression `Rules.UK`, which decides whether a string
is a syntactically valid United Kingdom postcode. The pattern is a choice
of seven alternatives anchored at both ends:

1. an outward code (`[A-Z]{1,2}[0-9][A-Z0-9]?`, or one of the
   overseas-territory codes `ASCN`, `STHL`, `TDCU`, `BBND`, `BIQQ`,
   `FIQQ`, `SIQQ`, `PCRN`, `TKCA`), an optional space, and an inward code
   `[0-9][A-Z]{2}`;
2. `BFPO` (British Forces Post Office), an optional space, 1 to 4 digits;
3. `KY<digit>`, `MSR`, `VG` or `AI`, an optional space or hyphen, 4 digits;
4. two letters, an optional space, two digits;
5. `GE ?CX`; 6. `GIR ?0AA`; 7. `SAN ?TA1`.

This project writes that pattern as a hand-made recognizer and proves
what the language it accepts looks like.

- `Chars` (`chars.dfy`): the character classes `[A-Z]`, `[0-9]`, and the
  separators. Matching is case-sensitive and ASCII-only.
- `UKPattern` (`uk_pattern.dfy`): one predicate per alternative and
  `ValidUK(s)`, true when the whole of `s` is one of them.
- `Structure` (`structure.dfy`): a postcode taken apart as
  `Parsed(form, head, sep, tail)`. `WellFormed` says which parts each
  alternative allows, and `Render` writes them back out. This is a second,
  generative description of the same language.
- `Parsing` (`parsing.dfy`): `Parse` reads a string into its parts. It is
  proved to succeed exactly on `ValidUK` strings, and `Parse`/`Render` are
  proved inverse. The seven alternatives are proved pairwise disjoint.
- `Properties` (`properties.dfy`): length bounds, alphabet, separators,
  the British Forces number range, and the parts of alternative 1.
- `PatternExamples` (`examples_pattern.dfy`): accepted and rejected
  strings, including both length extremes.
- `Scanner` (`scanner.dfy`): an index-scanning checker `IsValid`, proved
  to return exactly `ValidUK(s)`.
- `Anchoring` (`anchoring.dfy`): what `^...$` means under Python's
  `re` rules, where `$` also matches just before a final newline (see
  Findings).
- `PostcodeValue` (`postcode.dfy`): the `Postcode` value, a datatype
  holding one `string`. The constructor's only behaviour is to store its
  argument. Its type requirement is carried by the field's type.

`postcodelib/postcode.py` defines only the constructor; it has no
normalisation, validation, splitting or printing methods.

## Model

| member | source | states |
|---|---|---|
| `UKPattern.ValidUK` | postcodelib/validation_rules.py:11-15 | definition: the whole string matches one of the seven anchored alternatives of `Rules.UK`. |
| `UKPattern.IsStandardForm` | postcodelib/validation_rules.py:12-13 | definition: alternative 1, an outward code, an optional space, then an inward code. |
| `UKPattern.IsForcesForm` | postcodelib/validation_rules.py:13 | definition: alternative 2, `BFPO`, an optional space, then 1 to 4 digits. |
| `UKPattern.IsTerritoryForm` | postcodelib/validation_rules.py:13 | definition: alternative 3, `KY<digit>`, `MSR`, `VG` or `AI`, an optional space or hyphen, then 4 digits. |
| `UKPattern.IsShortForm` | postcodelib/validation_rules.py:13-14 | definition: alternative 4, two letters, an optional space, then two digits. |
| `UKPattern.IsGeCxForm` | postcodelib/validation_rules.py:14 | definition: alternative 5, `GE ?CX`. |
| `UKPattern.IsGirobankForm` | postcodelib/validation_rules.py:14 | definition: alternative 6, `GIR ?0AA`. |
| `UKPattern.IsSantaForm` | postcodelib/validation_rules.py:14 | definition: alternative 7, `SAN ?TA1`. |
| `UKPattern.IsOutward` | postcodelib/validation_rules.py:12 | definition: `[A-Z]{1,2}[0-9][A-Z0-9]?` or one of the nine overseas-territory outward codes. |
| `UKPattern.IsInward` | postcodelib/validation_rules.py:13 | definition: `[0-9][A-Z]{2}`. |
| `Chars.IsUpper` | postcodelib/validation_rules.py:12 | definition: the character class `[A-Z]`, ASCII upper-case letters only. |
| `Chars.IsDigit` | postcodelib/validation_rules.py:12 | definition: the character class `[0-9]`. |
| `Chars.IsSeparator` | postcodelib/validation_rules.py:12-13 | definition: the optional separators, a space everywhere and a hyphen in alternative 3. |
| `Anchoring.MatchesAsWritten` | postcodelib/validation_rules.py:11-15 | definition: some prefix of the string is accepted and Python's `$` holds right after it, that is at the end or before a final newline. |
| `Anchoring.MatchesWholeString` | postcodelib/validation_rules.py:11-15 | definition: the pattern accepts the string with nothing left over. |
| `PostcodeValue.Postcode` | postcodelib/postcode.py:13-14 | definition: a value that stores the one string it is constructed with. |
| `Scanner.ScanWord` | postcodelib/validation_rules.py:12-14 | The scan decides whether a literal word such as `BFPO` or `GIR` stands at a given position. |
| `Parsing.Parse` | postcodelib/validation_rules.py:11-15 | Parsing gives a result exactly when the pattern accepts the string. The parts it returns are well formed and render back to the input. |
| `Parsing.ParseValid` | postcodelib/validation_rules.py:11-15 | Every accepted string splits into well-formed parts that render back to it. |
| `Parsing.ParseRender` | postcodelib/validation_rules.py:11-15 | Any well-formed set of parts renders to a string the pattern accepts. Parsing that string gives back the same parts. |
| `Parsing.ValidUKIffRendered` | postcodelib/validation_rules.py:11-15 | A string is accepted if and only if it is the rendering of some well-formed set of parts. |
| `Parsing.ParseStandard` | postcodelib/validation_rules.py:12-13 | A string of alternative 1 splits into an outward code, an optional space and an inward code. |
| `Parsing.ParseForces` | postcodelib/validation_rules.py:13 | A string of alternative 2 splits into `BFPO`, an optional space and a 1-to-4-digit number. |
| `Parsing.ParseTerritory` | postcodelib/validation_rules.py:13 | A string of alternative 3 splits into a territory prefix, an optional space or hyphen, and 4 digits. |
| `Parsing.ParseShort` | postcodelib/validation_rules.py:13-14 | A string of alternative 4 splits into two letters, an optional space and two digits. |
| `Parsing.ParseLiteral` | postcodelib/validation_rules.py:14 | `GE ?CX`, `GIR ?0AA` and `SAN ?TA1` split into their two words, with or without the space. |
| `Parsing.ParseValidAgrees` | postcodelib/validation_rules.py:12-14 | Whichever alternative a string matches, parsing it takes it apart by that alternative alone. |
| `Parsing.ParseLiteralRender` | postcodelib/validation_rules.py:14 | `GE ?CX`, `GIR ?0AA` and `SAN ?TA1`, rendered with or without the space, parse back into the same words and separator. |
| `Parsing.StandardSignature` | postcodelib/validation_rules.py:12-13 | A string of alternative 1 is 5 to 8 characters long. Its third-from-last character is a digit and its last is a letter. What precedes the inward code is never `GIR`. |
| `Parsing.ForcesSignature` | postcodelib/validation_rules.py:13 | A string of alternative 2 is 5 to 9 characters long, starts with `B`, has `P` third, and ends in a digit. |
| `Parsing.TerritorySignature` | postcodelib/validation_rules.py:13 | A string of alternative 3 is 6 to 8 characters long, starts with K, M, V or A, and ends in a digit. |
| `Parsing.ShortSignature` | postcodelib/validation_rules.py:13-14 | A string of alternative 4 is 4 or 5 characters long. It ends in a digit, and its third character is a digit or a space. |
| `Parsing.StandardExcludesOthers` | postcodelib/validation_rules.py:12-14 | A string of alternative 1 matches none of the other six. |
| `Parsing.OthersDisjoint` | postcodelib/validation_rules.py:13-14 | Alternatives 2 to 7 exclude one another. |
| `Parsing.AlternativesDisjoint` | postcodelib/validation_rules.py:12-14 | No string matches more than one alternative. |
| `Parsing.RenderMatchesForm` | postcodelib/validation_rules.py:12-14 | Well-formed parts, rendered, match the alternative they were built as. |
| `Parsing.OutwardNoSpace` | postcodelib/validation_rules.py:12 | An outward code never ends in a space. The optional space therefore has only one place it can go. |
| `Structure.OutwardShape` | postcodelib/validation_rules.py:12 | An outward code is 2 to 4 characters, all from `[A-Z0-9]`. |
| `Structure.PartsShape` | postcodelib/validation_rules.py:12-14 | In every alternative, the head is 2 to 4 characters and the tail is 1 to 4, all from `[A-Z0-9]`. |
| `Structure.RenderLength` | postcodelib/validation_rules.py:12-14 | A rendered postcode is 4 to 9 characters long. |
| `Structure.RenderSeparators` | postcodelib/validation_rules.py:12-14 | Every character of a rendered postcode is a letter, digit, space or hyphen. A separator appears only at the join point. A hyphen appears only in the territory alternative, 5 from the end. |
| `Structure.SeparatorFreeIff` | postcodelib/validation_rules.py:12-14 | A rendered postcode has no separator exactly when it was built without one. |
| `Structure.DropSeparator` | postcodelib/validation_rules.py:12-14 | Removing the separator from well-formed parts keeps them well formed. The rendering becomes head followed directly by tail. |
| `Properties.LengthBounds` | postcodelib/validation_rules.py:12-14 | Every accepted string has 4 to 9 characters. |
| `Properties.Alphabet` | postcodelib/validation_rules.py:12-14 | Every character of an accepted string is an upper-case ASCII letter, a digit, a space or a hyphen. |
| `Properties.RejectsForeignChar` | postcodelib/validation_rules.py:12-14 | A string holding any other character is rejected. |
| `Properties.RejectsLowerCase` | postcodelib/validation_rules.py:12-14 | Matching is case-sensitive: a string containing a lower-case letter is rejected. |
| `Properties.Separators` | postcodelib/validation_rules.py:12-14 | An accepted string holds at most one separator. A hyphen occurs only in alternative 3, immediately before the four digits. |
| `Properties.RejectsDoubleSpace` | postcodelib/validation_rules.py:12-14 | Two consecutive spaces are never accepted. |
| `Properties.SeparatorRemovable` | postcodelib/validation_rules.py:12-14 | Deleting the separator of an accepted string leaves an accepted string. |
| `Properties.SpaceInsertable` | postcodelib/validation_rules.py:12-14 | An accepted string without a separator has a join point where inserting a space keeps it accepted. |
| `Properties.ExactlyOneAlternative` | postcodelib/validation_rules.py:12-14 | A string is accepted if and only if exactly one of the seven alternatives matches it. |
| `Properties.StandardFormParts` | postcodelib/validation_rules.py:12-13 | A string of alternative 1 ends in a digit and two letters. Before that, with the optional space removed, stands a 2-to-4-character outward code. |
| `Properties.ForcesPrefixOnly` | postcodelib/validation_rules.py:13 | A string beginning `BFPO` is accepted only by alternative 2, and then by no other alternative. |
| `Properties.ForcesNumbers` | postcodelib/validation_rules.py:13 | `BFPO` followed by digits, with or without a space, is accepted exactly when there are 1 to 4 digits. |
| `PatternExamples.AcceptsLondonExample` | postcodelib/validation_rules.py:12-13 | `EC1A 1BB` and `EC1A1BB` are accepted. |
| `PatternExamples.AcceptsFelthamExample` | postcodelib/validation_rules.py:12-13 | `TW13 4TA` and `TW134TA` are accepted. |
| `PatternExamples.AcceptsLlandudnoExample` | postcodelib/validation_rules.py:12-13 | `LL11 4BJ` is accepted. |
| `PatternExamples.AcceptsOverseasExamples` | postcodelib/validation_rules.py:12-13 | `ASCN 1ZZ` and `BFPO 1234` (the longest form) are accepted. |
| `PatternExamples.AcceptsHyphenExample` | postcodelib/validation_rules.py:13 | `KY1-1234` is accepted. |
| `PatternExamples.AcceptsLiteralExamples` | postcodelib/validation_rules.py:13-14 | `GIR 0AA`, `SAN TA1`, `GE CX`, `GECX` and `AB12` are accepted (the last two are the shortest forms). |
| `PatternExamples.RejectsExtraDigit` | postcodelib/validation_rules.py:12-14 | `TW1344TA` is rejected. |
| `PatternExamples.RejectsShortInward` | postcodelib/validation_rules.py:12-14 | `EC1A1B` is rejected. |
| `PatternExamples.RejectsWord` | postcodelib/validation_rules.py:12-14 | `ECWRONG` is rejected. |
| `PatternExamples.RejectsMalformed` | postcodelib/validation_rules.py:12-14 | `ec1a 1bb`, `EC1A  1BB`, `BFPO 12345` and the empty string are rejected. |
| `Scanner.IsValid` | postcodelib/validation_rules.py:11-15 | The index-scanning checker returns true exactly when the pattern accepts the string. |
| `Scanner.ScanStandard` | postcodelib/validation_rules.py:12-13 | The scan decides alternative 1 exactly. |
| `Scanner.ScanOutward` | postcodelib/validation_rules.py:12 | The scan decides the outward-code group, standard or special, exactly. |
| `Scanner.ScanSpecialOutward` | postcodelib/validation_rules.py:12 | The scan decides the nine overseas-territory outward codes exactly. |
| `Scanner.ScanForces` | postcodelib/validation_rules.py:13 | The scan decides alternative 2 exactly. |
| `Scanner.ScanTerritory` | postcodelib/validation_rules.py:13 | The scan decides alternative 3 exactly. |
| `Scanner.ScanTerritoryPrefix` | postcodelib/validation_rules.py:13 | The scan decides the territory prefixes `KY<digit>`, `MSR`, `VG` and `AI` exactly. |
| `Scanner.ScanShort` | postcodelib/validation_rules.py:13-14 | The scan decides alternative 4 exactly. |
| `Scanner.ScanJoinedLiteral` | postcodelib/validation_rules.py:14 | The scan decides `GE ?CX`, `GIR ?0A{2}` and `SAN ?TA1` exactly. |
| `Scanner.ScanUpper` | postcodelib/validation_rules.py:12-13 | The scan decides `[A-Z]{n}` over a range of positions. |
| `Scanner.ScanDigits` | postcodelib/validation_rules.py:13-14 | The scan decides `[0-9]{n}` over a range of positions. |
| `Anchoring.AsWrittenAcceptsTrailingNewline` | postcodelib/validation_rules.py:12-14 | Under Python's rules for `^` and `$`, the pattern accepts exactly the valid strings plus the valid strings followed by one newline. |
| `Anchoring.TrailingNewlineExample` | postcodelib/validation_rules.py:14 | `"EC1A 1BB\n"` is matched by the pattern as written but is not a valid postcode. |
| `Anchoring.WholeStringMatchIsValidUK` | postcodelib/validation_rules.py:12-14 | A whole-string match accepts exactly `ValidUK`. Nothing may follow an accepted postcode, not even a newline. |

## Left out

- Python's `re` module and the compilation of the pattern (postcodelib/validation_rules.py:1, 11-15): the grammar is written directly as predicates, not run through a regular-expression engine. Acceptance by a backtracking matcher is membership in the pattern's language, which `ValidUK` defines directly.
- postcodelib never applies the pattern: no module of `postcodelib` calls `re.match`, `re.search` or `re.fullmatch` with `Rules.UK`. `Anchoring` models both `re.match`-style and whole-string application.
- `Postcode.__init__` (postcodelib/postcode.py:13-14) only stores its argument. It is the datatype `PostcodeValue.Postcode` and has no operation. The "is a string" check in tests/test_postcode.py:11 is enforced by Dafny's typing.
- Which postcodes exist, and where they are, is out of scope. The model covers syntax only.

## Findings

| source | as written | input that shows it | evidently intended | confidence | as-written member | corrected member |
|---|---|---|---|---|---|---|
| postcodelib/validation_rules.py:14 | The pattern ends in `$`. Without the MULTILINE flag, Python's `$` also matches just before a newline that ends the string. Applied with `re.match` or `re.search`, the pattern therefore accepts an accepted postcode followed by `"\n"`. | `"EC1A 1BB\n"` | A whole-string match (`\Z`, or `re.fullmatch`) that accepts exactly the seven alternatives. | medium; not executed; postcodelib never applies the pattern | `Anchoring.MatchesAsWritten`, shown by `Anchoring.TrailingNewlineExample` and `Anchoring.AsWrittenAcceptsTrailingNewline` | `Anchoring.MatchesWholeString`, proved equal to `ValidUK` by `Anchoring.WholeStringMatchIsValidUK`; the rest of the model uses `ValidUK` |
