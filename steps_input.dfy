/**
 * The upload form's step field and the values `uploadSteps` derives from it:
 * the digit sanitiser of `UploadModal.handleChange` (frontend/web/src/App.tsx:541),
 * `parseInt(steps) || 0` (frontend/web/src/App.tsx:151), the submit button's
 * enabling condition (frontend/web/src/App.tsx:597), the record identifier
 * (frontend/web/src/App.tsx:152) and the description (frontend/web/src/App.tsx:163).
 */
module StepsInput {
  import opened Seqs
  import opened Text

  /** The upload form's contents, `newStepData`. */
  datatype Draft = Draft(name: string, steps: string)

  /** `value.replace(/[^\d]/g, '')`: every character that is not a decimal digit is removed. */
  function SanitizeSteps(value: string): (digits: string)
    ensures AllDigits(digits)
    ensures IsSubsequence(digits, value)
    ensures forall c :: IsDigit(c) ==> multiset(digits)[c] == multiset(value)[c]
  {
    FilterIsSubsequence(IsDigit, value);
    FilterCount(IsDigit, value);
    Filter(IsDigit, value)
  }

  /** Sanitising a sanitised value changes nothing. */
  lemma SanitizeIdempotent(value: string)
    ensures SanitizeSteps(SanitizeSteps(value)) == SanitizeSteps(value)
  {
    FilterIdempotent(IsDigit, value);
  }

  /**
   * `parseInt(steps) || 0` on the sanitised field: the decimal value of the
   * digits, leading zeros included; the empty field gives 0.
   */
  function ParseSteps(steps: string): (n: nat)
    requires AllDigits(steps)
    ensures steps == [] ==> n == 0
    ensures IsCanonical(steps) ==> Decimal(n) == steps
  {
    if IsCanonical(steps) then CanonicalRoundTrip(steps); DigitsValue(steps)
    else DigitsValue(steps)
  }

  /** Every count the form can show parses back to itself. */
  lemma ParseDecimal(n: nat)
    ensures ParseSteps(Decimal(n)) == n
  {
    DecimalRoundTrip(n);
  }

  /** Leading zeros do not change the parsed count: "007" gives 7. */
  lemma ParseIgnoresLeadingZeros(k: nat, steps: string)
    requires AllDigits(steps)
    ensures ParseSteps(Zeros(k) + steps) == ParseSteps(steps)
  {
    LeadingZerosIgnored(k, steps);
  }

  lemma ParseDoubleOhSeven()
    ensures ParseSteps("007") == 7
  {
    assert "007" == Zeros(2) + "7";
    ParseIgnoresLeadingZeros(2, "7");
  }

  /** The upload button is enabled: not busy, and neither field is empty. */
  function SubmitEnabled(uploading: bool, encrypting: bool, draft: Draft): bool
  {
    !(uploading || encrypting || draft.name == [] || draft.steps == [])
  }

  /**
   * With a name entered and nothing in flight, the button is enabled exactly
   * when the text typed into the step field held at least one digit.
   */
  lemma SubmitEnabledIffDigitTyped(name: string, typed: string)
    requires name != []
    ensures SubmitEnabled(false, false, Draft(name, SanitizeSteps(typed))) <==>
      exists i :: 0 <= i < |typed| && IsDigit(typed[i])
  {
    var digits := SanitizeSteps(typed);
    if i :| 0 <= i < |typed| && IsDigit(typed[i]) {
      assert typed[i] in multiset(typed);
      assert multiset(digits)[typed[i]] > 0;
    }
    if digits != [] {
      assert digits[0] in multiset(digits);
      assert digits[0] in typed;
    }
  }

  /** `address.substring(start, end)` for `start <= end`: both ends are clamped to the length. */
  function Substring(s: string, start: nat, end: nat): string
    requires start <= end
  {
    var e := if end <= |s| then end else |s|;
    var b := if start <= e then start else e;
    s[b..e]
  }

  /** `steps-${Date.now()}-${address.substring(2, 8)}`. */
  function BusinessId(now: nat, address: string): (id: string)
    ensures StartsWith(id, "steps-") && |id| > 7
    ensures |address| >= 8 ==> id[|id| - 7..] == "-" + address[2..8]
  {
    "steps-" + Decimal(now) + "-" + Substring(address, 2, 8)
  }

  /**
   * Two uploads get the same identifier exactly when they happen in the same
   * millisecond from addresses that agree on characters 2 to 7.
   */
  lemma BusinessIdCollision(now1: nat, address1: string, now2: nat, address2: string)
    ensures BusinessId(now1, address1) == BusinessId(now2, address2) <==>
      now1 == now2 && Substring(address1, 2, 8) == Substring(address2, 2, 8)
  {
    var d1, d2 := Decimal(now1), Decimal(now2);
    var s1, s2 := Substring(address1, 2, 8), Substring(address2, 2, 8);
    var id1, id2 := BusinessId(now1, address1), BusinessId(now2, address2);
    if id1 == id2 {
      assert |d1| == |d2| by {
        if |d1| < |d2| {
          DigitAfterPrefix(d1, s1, d2, s2);
        } else if |d2| < |d1| {
          DigitAfterPrefix(d2, s2, d1, s1);
        }
      }
      IdParts(d1, s1);
      IdParts(d2, s2);
      DecimalRoundTrip(now1);
      DecimalRoundTrip(now2);
    }
  }

  /** The numeral and the address slice can be read back from an identifier. */
  lemma IdParts(d: string, s: string)
    ensures var id := "steps-" + d + "-" + s;
      && |id| == 7 + |d| + |s|
      && id[6..6 + |d|] == d
      && id[7 + |d|..] == s
  {
  }

  /** The separator that follows a shorter numeral falls on a digit of a longer one. */
  lemma DigitAfterPrefix(d1: string, s1: string, d2: string, s2: string)
    requires AllDigits(d1) && AllDigits(d2) && |d1| < |d2|
    ensures "steps-" + d1 + "-" + s1 != "steps-" + d2 + "-" + s2
  {
    var id1, id2 := "steps-" + d1 + "-" + s1, "steps-" + d2 + "-" + s2;
    assert id1[6 + |d1|] == '-';
    assert id2[6 + |d1|] == d2[|d1|];
  }

  const DescriptionPrefix := "Daily steps: "

  /** `Daily steps: ${stepValue}`: the prefix, then a canonical numeral that reads back as the count. */
  function Description(steps: nat): (d: string)
    ensures StartsWith(d, DescriptionPrefix) && |d| > |DescriptionPrefix|
    ensures IsCanonical(d[|DescriptionPrefix|..]) && DigitsValue(d[|DescriptionPrefix|..]) == steps
  {
    var d := DescriptionPrefix + Decimal(steps);
    assert d[|DescriptionPrefix|..] == Decimal(steps);
    DecimalRoundTrip(steps);
    d
  }
}
