/**
 * The identity generator: a caller's callsign, Field Day class and section.
 * Every `random.randint` of the source is an explicit draw parameter whose
 * range is the precondition, so the generators are deterministic functions of
 * their draws.
 */
module IdentityGenerator {
  import opened Wrappers
  import opened Text

  // ---------------------------------------------------------------------
  // generate_class
  // ---------------------------------------------------------------------

  /** The category table `["A", "B", "C", "D", "E", "F"]`. */
  const Categories: string := "ABCDEF"

  /**
   * The draws of `generate_class`: the category index, and the transmitter
   * count drawn for B (1..2), A (3..20) and F (1..20); C, D and E draw none.
   */
  predicate ClassDrawsValid(category: nat, number: nat)
  {
    && category < 6
    && (category == 0 ==> 3 <= number <= 20)
    && (category == 1 ==> 1 <= number <= 2)
    && (category == 5 ==> 1 <= number <= 20)
  }

  /** The classes the generator can produce. */
  predicate IsFieldDayClass(r: string)
  {
    || r == "1C" || r == "1D" || r == "1E"
    || r == "1B" || r == "2B"
    || (exists n: nat :: 3 <= n <= 20 && r == NatToString(n) + "A")
    || (exists n: nat :: 1 <= n <= 20 && r == NatToString(n) + "F")
  }

  /** `generate_class()`: the class ends in the drawn category letter. */
  function GenerateClass(category: nat, number: nat): (r: string)
    requires ClassDrawsValid(category, number)
    ensures IsFieldDayClass(r)
    ensures |r| >= 2 && r[|r| - 1] == Categories[category]
  {
    var suffix := Categories[category];
    if suffix == 'C' then "1C"
    else if suffix == 'D' then "1D"
    else if suffix == 'E' then "1E"
    else if suffix == 'B' then
      assert NatToString(1) == "1" && NatToString(2) == "2";
      NatToString(number) + [suffix]
    else if suffix == 'A' then NatToString(number) + [suffix]
    else NatToString(number) + [suffix]
  }

  /** Every class of the list is produced by some draws. */
  lemma GenerateClassCovers(r: string)
    requires IsFieldDayClass(r)
    ensures exists category: nat, number: nat ::
              ClassDrawsValid(category, number) && GenerateClass(category, number) == r
  {
    assert NatToString(1) == "1" && NatToString(2) == "2";
    if r == "1C" {
      assert GenerateClass(2, 0) == r;
    } else if r == "1D" {
      assert GenerateClass(3, 0) == r;
    } else if r == "1E" {
      assert GenerateClass(4, 0) == r;
    } else if r == "1B" {
      assert GenerateClass(1, 1) == r;
    } else if r == "2B" {
      assert GenerateClass(1, 2) == r;
    } else if exists n: nat :: 3 <= n <= 20 && r == NatToString(n) + "A" {
      var n: nat :| 3 <= n <= 20 && r == NatToString(n) + "A";
      assert GenerateClass(0, n) == r;
    } else {
      var n: nat :| 1 <= n <= 20 && r == NatToString(n) + "F";
      assert GenerateClass(5, n) == r;
    }
  }

  // ---------------------------------------------------------------------
  // generate_callsign
  // ---------------------------------------------------------------------

  /** The prefix table `["A", "K", "N", "W"]`. */
  const Prefixes: string := "AKNW"

  /**
   * The draws of `generate_callsign`, in the order the source makes them:
   * the prefix index (0..3), the roll deciding a second prefix letter (0..2,
   * 0 means yes), the second prefix letter (0..11 after "A", else 0..25), the
   * call-area digit (0..9) and the suffix letters (0..25 each), whose count is
   * the drawn suffix length (1..2 after "A", else 1..3).
   */
  datatype CallsignDraws = CallsignDraws(prefix: nat, secondRoll: nat, secondLetter: nat, digit: nat, suffix: seq<nat>)

  predicate ValidCallsignDraws(d: CallsignDraws)
  {
    && d.prefix < 4
    && d.secondRoll < 3
    && d.digit < 10
    && (if Prefixes[d.prefix] == 'A' then d.secondLetter < 12 && 1 <= |d.suffix| <= 2
        else d.secondLetter < 26 && 1 <= |d.suffix| <= 3)
    && forall k :: 0 <= k < |d.suffix| ==> d.suffix[k] < 26
  }

  /** The letters with the given alphabet indices. */
  function Letters(ix: seq<nat>): (s: string)
    requires forall k :: 0 <= k < |ix| ==> ix[k] < 26
    ensures |s| == |ix| && AllUpper(s)
  {
    seq(|ix|, k requires 0 <= k < |ix| => Letter(ix[k]))
  }

  /** The alphabet indices of upper-case letters. */
  function LetterIndices(s: string): (ix: seq<nat>)
    requires AllUpper(s)
    ensures |ix| == |s| && forall k :: 0 <= k < |ix| ==> ix[k] < 26
    ensures Letters(ix) == s
  {
    seq(|s|, k requires 0 <= k < |s| => LetterIndex(s[k]))
  }

  /**
   * The callsign grammar: one of A, K, N, W; after A a mandatory second letter
   * A..L, the call-area digit and 1 or 2 letters; after K, N or W an optional
   * second letter, the call-area digit and 1 to 3 letters.
   */
  predicate IsCallsign(c: string)
  {
    && |c| >= 3
    && c[0] in Prefixes
    && if c[0] == 'A' then
         'A' <= c[1] <= 'L' && IsDigit(c[2]) && |c| <= 5 && |c| >= 4 && AllUpper(c[3..])
       else
         || (IsDigit(c[1]) && |c| <= 5 && AllUpper(c[2..]))
         || (IsUpper(c[1]) && IsDigit(c[2]) && 4 <= |c| <= 6 && AllUpper(c[3..]))
  }

  predicate HasSecondLetter(d: CallsignDraws)
    requires d.prefix < 4
  {
    Prefixes[d.prefix] == 'A' || d.secondRoll == 0
  }

  /** The callsign built from the draws, part by part. */
  function CallsignOf(d: CallsignDraws): (c: string)
    requires ValidCallsignDraws(d)
    ensures IsCallsign(c)
    ensures c[if HasSecondLetter(d) then 2 else 1] == DigitChar(d.digit)
  {
    var second := if HasSecondLetter(d) then [Letter(d.secondLetter)] else [];
    var c := [Prefixes[d.prefix]] + second + [DigitChar(d.digit)] + Letters(d.suffix);
    assert c[|second| + 2..] == Letters(d.suffix);
    c
  }

  /** `generate_callsign()`: grows the callsign one character at a time. */
  method GenerateCallsign(d: CallsignDraws) returns (callsign: string)
    requires ValidCallsignDraws(d)
    ensures callsign == CallsignOf(d)
    ensures IsCallsign(callsign)
  {
    callsign := [Prefixes[d.prefix]];
    var addSecondPrefixLetter := d.secondRoll == 0;
    if 'A' in callsign {
      callsign := callsign + [Letter(d.secondLetter)];
      addSecondPrefixLetter := false;
    }
    if addSecondPrefixLetter {
      callsign := callsign + [Letter(d.secondLetter)];
    }
    callsign := callsign + [DigitChar(d.digit)];
    ghost var head := callsign;
    var suffixLength := |d.suffix|;
    for k := 0 to suffixLength
      invariant callsign == head + Letters(d.suffix[..k])
    {
      callsign := callsign + [Letter(d.suffix[k])];
    }
    assert d.suffix[..suffixLength] == d.suffix;
  }

  function PrefixIndex(c: char): (i: nat)
    requires c in Prefixes
    ensures i < 4 && Prefixes[i] == c
  {
    if c == 'A' then 0 else if c == 'K' then 1 else if c == 'N' then 2 else 3
  }

  /** Draws that produce a given callsign of the grammar. */
  function DrawsFor(c: string): (d: CallsignDraws)
    requires IsCallsign(c)
    ensures ValidCallsignDraws(d) && CallsignOf(d) == c
  {
    var p := PrefixIndex(c[0]);
    if c[0] == 'A' then
      var d := CallsignDraws(p, 0, LetterIndex(c[1]), DigitValue(c[2]), LetterIndices(c[3..]));
      assert CallsignOf(d) == c[..3] + c[3..];
      d
    else if IsDigit(c[1]) then
      var d := CallsignDraws(p, 1, 0, DigitValue(c[1]), LetterIndices(c[2..]));
      assert CallsignOf(d) == c[..2] + c[2..];
      d
    else
      var d := CallsignDraws(p, 0, LetterIndex(c[1]), DigitValue(c[2]), LetterIndices(c[3..]));
      assert CallsignOf(d) == c[..3] + c[3..];
      d
  }

  // ---------------------------------------------------------------------
  // generate_section
  // ---------------------------------------------------------------------

  /** The `call_areas` table: the sections of each call area, in order. */
  function AreaSections(area: char): (sections: seq<string>)
    requires IsDigit(area)
    ensures |sections| > 0
  {
    if area == '0' then ["CO", "MO", "IA", "ND", "KS", "NE", "MN", "SD"]
    else if area == '1' then ["CT", "RI", "EMA", "VT", "ME", "WMA", "NH"]
    else if area == '2' then ["ENY", "NNY", "NLI", "SNJ", "NNJ", "WNY"]
    else if area == '3' then ["DE", "MDC", "EPA", "WPA"]
    else if area == '4' then ["QL", "SC", "GA", "SFL", "KY", "TN", "NC", "VA", "NFL", "VI", "PR", "WCF"]
    else if area == '5' then ["AR", "NTX", "LA", "OK", "MS", "STX", "NM", "WTX"]
    else if area == '6' then ["EBA", "SCV", "LAX", "SDG", "ORG", "SF", "PAC", "SJV", "SB", "SV"]
    else if area == '7' then ["AK", "NV", "AZ", "OR", "EWA", "UT", "ID", "WWA", "MT", "WY"]
    else if area == '8' then ["MI", "WV", "OH"]
    else ["IL", "WI", "IN"]
  }

  /** `call[1]` or `call[2]` raising IndexError, or the area missing from the table (KeyError). */
  datatype SectionError = IndexOutOfRange | UnknownCallArea(area: char)

  /** The character the source looks up: `call[1]` if it is a digit, else `call[2]`. */
  function CallArea(call: string): Result<char, SectionError>
  {
    if |call| < 2 then Failure(IndexOutOfRange)
    else if IsDigit(call[1]) then Success(call[1])
    else if |call| < 3 then Failure(IndexOutOfRange)
    else Success(call[2])
  }

  /** The section draw lies in the range of the table entry it indexes. */
  predicate SectionPickInRange(call: string, pick: nat)
  {
    var area := CallArea(call);
    area.Success? && IsDigit(area.value) ==> pick < |AreaSections(area.value)|
  }

  /**
   * `generate_section(call)`: succeeds exactly when a digit stands at index 1
   * or, failing that, at index 2, and then returns a section of that digit's
   * call area.
   */
  function GenerateSection(call: string, pick: nat): (r: Result<string, SectionError>)
    requires SectionPickInRange(call, pick)
    ensures r.Success? <==> |call| >= 2 && (IsDigit(call[1]) || (|call| >= 3 && IsDigit(call[2])))
    ensures r.Success? ==> r.value in AreaSections(if IsDigit(call[1]) then call[1] else call[2])
  {
    match CallArea(call)
    case Failure(e) => Failure(e)
    case Success(area) =>
      if IsDigit(area) then Success(AreaSections(area)[pick]) else Failure(UnknownCallArea(area))
  }

  /** The call-area digit of a callsign of the grammar. */
  function AreaDigit(c: string): (area: char)
    requires IsCallsign(c)
    ensures IsDigit(area)
  {
    if IsDigit(c[1]) then c[1] else c[2]
  }

  /**
   * A callsign of the grammar has its digit at index 1 or 2, so the section
   * lookup never fails on the generator's own output.
   */
  lemma SectionOfCallsign(c: string, pick: nat)
    requires IsCallsign(c)
    requires pick < |AreaSections(AreaDigit(c))|
    ensures IsDigit(c[1]) || IsDigit(c[2])
    ensures SectionPickInRange(c, pick)
    ensures GenerateSection(c, pick) == Success(AreaSections(AreaDigit(c))[pick])
  {
  }

  /** The section of a generated callsign comes from the area of its drawn digit. */
  lemma SectionOfGeneratedCallsign(d: CallsignDraws, pick: nat)
    requires ValidCallsignDraws(d)
    requires pick < |AreaSections(DigitChar(d.digit))|
    ensures AreaDigit(CallsignOf(d)) == DigitChar(d.digit)
    ensures SectionPickInRange(CallsignOf(d), pick)
    ensures GenerateSection(CallsignOf(d), pick) == Success(AreaSections(DigitChar(d.digit))[pick])
  {
    var c := CallsignOf(d);
    if !HasSecondLetter(d) {
      assert IsDigit(c[1]);
    } else {
      assert IsUpper(c[1]);
    }
    SectionOfCallsign(c, pick);
  }

  // ---------------------------------------------------------------------
  // A caller's identity
  // ---------------------------------------------------------------------

  datatype Identity = Identity(callsign: string, klass: string, section: string)

  /** A callsign of the grammar, a class of the list and a section of the callsign's area. */
  predicate WellFormedIdentity(id: Identity)
  {
    && IsCallsign(id.callsign)
    && IsFieldDayClass(id.klass)
    && id.section in AreaSections(AreaDigit(id.callsign))
  }

  /** All the draws made for one identity. */
  datatype IdentityDraws = IdentityDraws(call: CallsignDraws, category: nat, number: nat, sectionPick: nat)

  predicate ValidIdentityDraws(d: IdentityDraws)
  {
    && ValidCallsignDraws(d.call)
    && ClassDrawsValid(d.category, d.number)
    && d.sectionPick < |AreaSections(DigitChar(d.call.digit))|
  }

  /** `generate_callsign()`, `generate_class()`, `generate_section(callsign)` in a row. */
  function NewIdentity(d: IdentityDraws): (id: Identity)
    requires ValidIdentityDraws(d)
    ensures WellFormedIdentity(id)
    ensures id.callsign == CallsignOf(d.call)
  {
    var callsign := CallsignOf(d.call);
    SectionOfGeneratedCallsign(d.call, d.sectionPick);
    Identity(callsign, GenerateClass(d.category, d.number), GenerateSection(callsign, d.sectionPick).value)
  }

  /** Every well-formed identity is produced by some draws. */
  lemma NewIdentityCovers(id: Identity)
    requires WellFormedIdentity(id)
    ensures exists d :: ValidIdentityDraws(d) && NewIdentity(d) == id
  {
    var call := DrawsFor(id.callsign);
    GenerateClassCovers(id.klass);
    var category: nat, number: nat :| ClassDrawsValid(category, number) && GenerateClass(category, number) == id.klass;
    var sections := AreaSections(AreaDigit(id.callsign));
    var pick :| 0 <= pick < |sections| && sections[pick] == id.section;
    SectionOfGeneratedCallsign(call, pick);
    var d := IdentityDraws(call, category, number, pick);
    assert NewIdentity(d) == id;
  }
}
