/**
 * `formatAadhaar`, shared verbatim by the farmer portal and the farmer link panel:
 * keep the first twelve digits of the input and put a hyphen after every complete
 * group of four that another digit follows, as in `1234-5678-9012`; and the
 * twelve-digit test both components apply before sending a number.
 */
module Aadhaar {
  import opened JsString

  const AadhaarDigits := 12

  /**
   * `s.replace(/(\d{4})(?=\d)/g, "$1-")`: scanning left to right, four digits followed
   * by a fifth are copied with a hyphen after them and the scan resumes after the
   * four; at any other position one character is copied unchanged.
   */
  function ReplaceGroups(s: string): string
    decreases |s|
  {
    if |s| >= 5 && AllDigits(s[..5]) then s[..4] + "-" + ReplaceGroups(s[4..])
    else if s == [] then []
    else [s[0]] + ReplaceGroups(s[1..])
  }

  /** A digit string split into groups of four joined by hyphens. */
  function Grouped(d: string): (r: string)
    decreases |d|
  {
    if |d| > 4 then d[..4] + "-" + Grouped(d[4..]) else d
  }

  /** On a digit string the regex replacement is exactly the grouping. */
  lemma {:induction false} ReplaceGroupsOfDigits(d: string)
    requires AllDigits(d)
    ensures ReplaceGroups(d) == Grouped(d)
    decreases |d|
  {
    if |d| > 4 {
      assert AllDigits(d[..5]);
      ReplaceGroupsOfDigits(d[4..]);
    } else if d != [] {
      ReplaceGroupsOfDigits(d[1..]);
      assert ReplaceGroups(d) == [d[0]] + d[1..];
    }
  }

  /** The first twelve digits of the input, grouped. */
  function FormatAadhaar(val: string): (r: string)
    ensures r == Grouped(Slice(DigitsOf(val), 0, AadhaarDigits))
  {
    var digits := Slice(DigitsOf(val), 0, AadhaarDigits);
    ReplaceGroupsOfDigits(digits);
    ReplaceGroups(digits)
  }

  /** `digits.length !== 12` is the rejection test of both handlers. */
  predicate IsValidAadhaarInput(input: string): (ok: bool)
    ensures ok ==> |input| >= AadhaarDigits
    ensures AllDigits(input) ==> (ok <==> |input| == AadhaarDigits)
  {
    |DigitsOf(input)| == AadhaarDigits
  }

  /** The grouping removes nothing but hyphens it added: its digits are the input digits. */
  lemma {:induction false} GroupedDigits(d: string)
    requires AllDigits(d)
    ensures DigitsOf(Grouped(d)) == d
    decreases |d|
  {
    if |d| > 4 {
      GroupedDigits(d[4..]);
      assert AllDigits(d[..4]);
      DigitsOfAppend(d[..4], "-");
      DigitsOfAppend(d[..4] + "-", Grouped(d[4..]));
      assert "-"[1..] == [];
      assert d[..4] + d[4..] == d;
    }
  }

  /** Position `i` of a grouping holds a hyphen exactly at every fifth place, and a digit elsewhere. */
  lemma {:induction false} GroupedAt(d: string, i: nat)
    requires AllDigits(d)
    requires i < |Grouped(d)|
    ensures Grouped(d)[i] == '-' <==> i % 5 == 4
    ensures i % 5 != 4 ==> IsDigit(Grouped(d)[i])
    decreases |d|
  {
    if |d| > 4 && i >= 5 {
      GroupedAt(d[4..], i - 5);
      assert Grouped(d)[i] == Grouped(d[4..])[i - 5];
    }
  }

  lemma {:induction false} GroupedLength(d: string)
    ensures |Grouped(d)| == if d == [] then 0 else |d| + (|d| - 1) / 4
    decreases |d|
  {
    if |d| > 4 {
      GroupedLength(d[4..]);
    }
  }

  /** The shape of a grouping: digits and hyphens, a hyphen at every fifth place only, never last. */
  lemma GroupedShape(d: string)
    requires AllDigits(d)
    ensures var r := Grouped(d);
            (forall i :: 0 <= i < |r| ==> IsDigit(r[i]) || r[i] == '-') &&
            (forall i :: 0 <= i < |r| ==> (r[i] == '-' <==> i % 5 == 4)) &&
            (r != [] ==> r[|r| - 1] != '-')
  {
    var r := Grouped(d);
    forall i | 0 <= i < |r|
      ensures IsDigit(r[i]) || r[i] == '-'
      ensures r[i] == '-' <==> i % 5 == 4
    {
      GroupedAt(d, i);
    }
    if r != [] {
      GroupedAt(d, |r| - 1);
    }
  }

  /**
   * The formatted number holds only digits and hyphens, its digits are the first twelve
   * digits of the input, a hyphen stands at every fifth place and nowhere else (so never
   * last), and it is at most 14 characters long.
   */
  lemma FormatAadhaarShape(val: string)
    ensures var r := FormatAadhaar(val);
            var digits := DigitsOf(val);
            DigitsOf(r) == digits[..if |digits| < AadhaarDigits then |digits| else AadhaarDigits] &&
            |r| <= 14 &&
            (forall i :: 0 <= i < |r| ==> IsDigit(r[i]) || r[i] == '-') &&
            (forall i :: 0 <= i < |r| ==> (r[i] == '-' <==> i % 5 == 4)) &&
            (r != [] ==> r[|r| - 1] != '-')
  {
    var digits := DigitsOf(val);
    var d := Slice(digits, 0, AadhaarDigits);
    SlicePrefix(digits, AadhaarDigits);
    assert |d| <= AadhaarDigits;
    GroupedDigits(d);
    GroupedLength(d);
    GroupedShape(d);
  }

  /** Formatting what is already formatted changes nothing. */
  lemma FormatAadhaarIdempotent(val: string)
    ensures FormatAadhaar(FormatAadhaar(val)) == FormatAadhaar(val)
  {
    var digits := DigitsOf(val);
    var d := Slice(digits, 0, AadhaarDigits);
    SlicePrefix(digits, AadhaarDigits);
    assert |d| <= AadhaarDigits;
    GroupedDigits(d);
    SlicePrefix(d, AadhaarDigits);
    assert d[..|d|] == d;
    assert FormatAadhaar(FormatAadhaar(val)) == Grouped(Slice(d, 0, AadhaarDigits));
  }

  /** The formatted field passes the twelve-digit test exactly when the typed text had at least twelve digits. */
  lemma FormattedInputValid(val: string)
    ensures IsValidAadhaarInput(FormatAadhaar(val)) <==> |DigitsOf(val)| >= AadhaarDigits
  {
    var digits := DigitsOf(val);
    SlicePrefix(digits, AadhaarDigits);
    GroupedDigits(Slice(digits, 0, AadhaarDigits));
  }
}
