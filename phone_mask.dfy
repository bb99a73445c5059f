/** The input mask of the subscription form (`formatPhoneNumber`): raw
    keystrokes become `(ddd) ddd-dddd`, or `1 (ddd) ddd-dddd` when a country
    code is present. The previous field value, which the form reads from its
    state, is an explicit parameter. */
module PhoneMask {
  import opened Strings

  /** Whether the digits of `s` begin with `1` (`s.startsWith('1')`, and
      `numbers[0] === '1'`, which is false on the empty string). */
  predicate StartsWithOne(s: string) {
    |s| > 0 && s[0] == '1'
  }

  /** The previous value already carried a country code. */
  predicate PreviousHadOne(previous: string) {
    StartsWithOne(DigitsOf(previous))
  }

  predicate HasCountryCode(previous: string, value: string) {
    StartsWithOne(DigitsOf(value)) || PreviousHadOne(previous)
  }

  /** The digit string the mask works on: the new digits, with the sticky `1`
      put back in front when the previous value had it and the new one lost it. */
  function WorkingNumbers(previous: string, value: string): string {
    var numbers := DigitsOf(value);
    if HasCountryCode(previous, value) && !StartsWithOne(numbers) && PreviousHadOne(previous)
    then "1" + numbers
    else numbers
  }

  /** 11 digits with a country code, 10 without. */
  function MaxDigits(hasCountryCode: bool): nat {
    if hasCountryCode then 11 else 10
  }

  /** `finalNumbers`: the working digits capped, with a second `1` re-prefix
      should the capped digits not start with one. */
  function FinalNumbers(previous: string, value: string): string {
    var hasCountryCode := HasCountryCode(previous, value);
    var limitedNumbers := Take(WorkingNumbers(previous, value), MaxDigits(hasCountryCode));
    if hasCountryCode && !StartsWithOne(limitedNumbers)
    then "1" + Take(limitedNumbers, 10)
    else limitedNumbers
  }

  /** The progressive rendering of the final digits. */
  function Render(hasCountryCode: bool, finalNumbers: string): string {
    var phoneDigits :=
      if hasCountryCode && |finalNumbers| > 1 then finalNumbers[1..]
      else if hasCountryCode then ""
      else finalNumbers;
    if hasCountryCode then
      if |phoneDigits| == 0 then "1"
      else if |phoneDigits| <= 3 then "1 (" + phoneDigits
      else if |phoneDigits| <= 6 then "1 (" + phoneDigits[..3] + ") " + phoneDigits[3..]
      else "1 (" + phoneDigits[..3] + ") " + phoneDigits[3..6] + "-" + phoneDigits[6..]
    else
      if |phoneDigits| <= 3 then "(" + phoneDigits
      else if |phoneDigits| <= 6 then "(" + phoneDigits[..3] + ") " + phoneDigits[3..]
      else "(" + phoneDigits[..3] + ") " + phoneDigits[3..6] + "-" + phoneDigits[6..]
  }

  /** `formatPhoneNumber(value)` with the field's current value `previous`. */
  function FormatPhoneNumber(previous: string, value: string): (r: string)
    ensures r == "" <==> DigitsOf(value) == ""
  {
    if |DigitsOf(value)| == 0 then ""
    else Render(HasCountryCode(previous, value), FinalNumbers(previous, value))
  }

  // ---------------------------------------------------------------------
  // Reference definition: a mask template filled with digits. A template is
  // a list of literal pieces and digit slots; a literal piece is shown only
  // when a digit follows it, and the slots take the digits in order.

  datatype Piece = Literal(text: string) | Slots(count: nat)

  /** `-####`. */
  function LineMask(): seq<Piece> {
    [Literal("-"), Slots(4)]
  }

  /** `###-####`. */
  function ExchangeMask(): seq<Piece> {
    [Slots(3)] + LineMask()
  }

  /** `(###) ###-####`. */
  function LocalMask(): seq<Piece> {
    [Literal("("), Slots(3), Literal(") ")] + ExchangeMask()
  }

  /** `# (###) ###-####`: the country code takes the first slot. */
  function CountryMask(): seq<Piece> {
    [Slots(1), Literal(" ")] + LocalMask()
  }

  function Mask(hasCountryCode: bool): seq<Piece> {
    if hasCountryCode then CountryMask() else LocalMask()
  }

  function Fill(mask: seq<Piece>, digits: string): string {
    if digits == [] || mask == [] then []
    else match mask[0]
      case Literal(text) => text + Fill(mask[1..], digits)
      case Slots(n) =>
        if |digits| <= n then digits else digits[..n] + Fill(mask[1..], digits[n..])
  }

  /** How many digits a mask has room for. */
  function SlotCount(mask: seq<Piece>): nat {
    if mask == [] then 0
    else (if mask[0].Slots? then mask[0].count else 0) + SlotCount(mask[1..])
  }

  /** The longest text a mask can show. */
  function Width(mask: seq<Piece>): nat {
    if mask == [] then 0
    else (if mask[0].Slots? then mask[0].count else |mask[0].text|) + Width(mask[1..])
  }

  /** No literal piece contains a digit. */
  predicate LiteralsDigitFree(mask: seq<Piece>) {
    forall i :: 0 <= i < |mask| ==> mask[i].Literal? ==> NoDigits(mask[i].text)
  }

  lemma {:induction false} FillLength(mask: seq<Piece>, digits: string)
    requires |digits| <= SlotCount(mask)
    ensures |Fill(mask, digits)| <= Width(mask)
  {
    if digits == [] || mask == [] {
    } else if mask[0].Literal? {
      FillLength(mask[1..], digits);
    } else if |digits| > mask[0].count {
      FillLength(mask[1..], digits[mask[0].count..]);
    }
  }

  /** Filling a mask whose literals hold no digits, with no more digits than
      it has slots for, shows exactly those digits. */
  lemma {:induction false} FillDigits(mask: seq<Piece>, digits: string)
    requires LiteralsDigitFree(mask)
    requires AllDigits(digits) && |digits| <= SlotCount(mask)
    ensures DigitsOf(Fill(mask, digits)) == digits
  {
    if digits == [] || mask == [] {
    } else if mask[0].Literal? {
      FillDigits(mask[1..], digits);
      DigitsOfAppend(mask[0].text, Fill(mask[1..], digits));
    } else if |digits| > mask[0].count {
      var n := mask[0].count;
      FillDigits(mask[1..], digits[n..]);
      DigitsOfAppend(digits[..n], Fill(mask[1..], digits[n..]));
      assert AllDigits(digits[..n]);
    }
  }

  /** Slots, width and digit-freedom of a mask, one piece at a time. */
  lemma PieceThen(p: Piece, rest: seq<Piece>)
    ensures SlotCount([p] + rest) == (if p.Slots? then p.count else 0) + SlotCount(rest)
    ensures Width([p] + rest) == (if p.Slots? then p.count else |p.text|) + Width(rest)
    ensures LiteralsDigitFree([p] + rest) <==>
              (p.Literal? ==> NoDigits(p.text)) && LiteralsDigitFree(rest)
  {
    var m := [p] + rest;
    assert m[1..] == rest;
    if LiteralsDigitFree(rest) && (p.Literal? ==> NoDigits(p.text)) {
      forall i | 0 <= i < |m| && m[i].Literal?
        ensures NoDigits(m[i].text)
      {
        if i > 0 {
          assert m[i] == rest[i - 1];
        }
      }
    }
    if LiteralsDigitFree(m) {
      forall i | 0 <= i < |rest| && rest[i].Literal?
        ensures NoDigits(rest[i].text)
      {
        assert rest[i] == m[i + 1];
      }
    }
  }

  lemma ExchangeMaskFacts()
    ensures LiteralsDigitFree(ExchangeMask()) && SlotCount(ExchangeMask()) == 7 && Width(ExchangeMask()) == 8
  {
    assert NoDigits("-");
    PieceThen(Slots(4), []);
    assert [Slots(4)] + [] == [Slots(4)];
    PieceThen(Literal("-"), [Slots(4)]);
    assert LineMask() == [Literal("-")] + [Slots(4)];
    PieceThen(Slots(3), LineMask());
  }

  lemma LocalMaskFacts()
    ensures LiteralsDigitFree(LocalMask()) && SlotCount(LocalMask()) == 10 && Width(LocalMask()) == 14
  {
    assert NoDigits(") ") && NoDigits("(");
    ExchangeMaskFacts();
    var tail := [Literal(") ")] + ExchangeMask();
    PieceThen(Literal(") "), ExchangeMask());
    PieceThen(Slots(3), tail);
    PieceThen(Literal("("), [Slots(3)] + tail);
    assert LocalMask() == [Literal("(")] + ([Slots(3)] + tail);
  }

  lemma MaskFacts()
    ensures LiteralsDigitFree(LocalMask()) && SlotCount(LocalMask()) == 10 && Width(LocalMask()) == 14
    ensures LiteralsDigitFree(CountryMask()) && SlotCount(CountryMask()) == 11 && Width(CountryMask()) == 16
  {
    assert NoDigits(" ");
    LocalMaskFacts();
    PieceThen(Literal(" "), LocalMask());
    PieceThen(Slots(1), [Literal(" ")] + LocalMask());
    assert CountryMask() == [Slots(1)] + ([Literal(" ")] + LocalMask());
  }

  // Filling a mask one piece at a time.

  lemma FillLiteral(text: string, rest: seq<Piece>, digits: string)
    requires digits != []
    ensures Fill([Literal(text)] + rest, digits) == text + Fill(rest, digits)
  {
    assert ([Literal(text)] + rest)[1..] == rest;
  }

  lemma FillSlots(n: nat, rest: seq<Piece>, digits: string)
    requires digits != []
    ensures Fill([Slots(n)] + rest, digits) ==
            if |digits| <= n then digits else digits[..n] + Fill(rest, digits[n..])
  {
    assert ([Slots(n)] + rest)[1..] == rest;
  }

  // The three bands of the local mask, `(###`, `(###) ###` and
  // `(###) ###-####`, built from the last piece backwards.

  lemma FillLineNumber(digits: string)
    requires 1 <= |digits| <= 4
    ensures Fill(LineMask(), digits) == "-" + digits
  {
    assert LineMask() == [Literal("-")] + [Slots(4)];
    FillLiteral("-", [Slots(4)], digits);
    FillSlots(4, [], digits);
  }

  lemma FillExchange(digits: string)
    requires 1 <= |digits| <= 7
    ensures Fill(ExchangeMask(), digits) ==
            if |digits| <= 3 then digits else digits[..3] + ("-" + digits[3..])
  {
    FillSlots(3, LineMask(), digits);
    if |digits| > 3 {
      FillLineNumber(digits[3..]);
    }
  }

  /** The area-code band, for any mask of the exchange and line number. */
  lemma FillAreaBand(exchange: seq<Piece>, digits: string)
    requires digits != []
    ensures Fill([Literal("("), Slots(3), Literal(") ")] + exchange, digits) ==
            "(" + (if |digits| <= 3 then digits else digits[..3] + (") " + Fill(exchange, digits[3..])))
  {
    var tail := [Literal(") ")] + exchange;
    assert [Literal("("), Slots(3), Literal(") ")] + exchange == [Literal("(")] + ([Slots(3)] + tail);
    FillLiteral("(", [Slots(3)] + tail, digits);
    FillSlots(3, tail, digits);
    if |digits| > 3 {
      FillLiteral(") ", exchange, digits[3..]);
    }
  }

  lemma FillAreaCode(digits: string)
    requires 1 <= |digits| <= 10
    ensures Fill(LocalMask(), digits) ==
            "(" + (if |digits| <= 3 then digits
                   else if |digits| <= 6 then digits[..3] + (") " + digits[3..])
                   else digits[..3] + (") " + (digits[3..6] + ("-" + digits[6..]))))
  {
    FillAreaBand(ExchangeMask(), digits);
    if |digits| > 3 {
      FillExchangeBand(digits);
    }
  }

  /** The local mask past the area code, in terms of the remaining digits. */
  lemma FillExchangeBand(digits: string)
    requires 3 < |digits| <= 10
    ensures Fill(ExchangeMask(), digits[3..]) ==
            if |digits| <= 6 then digits[3..] else digits[3..6] + ("-" + digits[6..])
  {
    var d3 := digits[3..];
    FillExchange(d3);
    if |d3| > 3 {
      assert d3[..3] == digits[3..6] && d3[3..] == digits[6..];
    }
  }

  lemma RenderLocal(digits: string)
    requires 1 <= |digits| <= 10
    ensures Render(false, digits) ==
            "(" + (if |digits| <= 3 then digits
                   else if |digits| <= 6 then digits[..3] + (") " + digits[3..])
                   else digits[..3] + (") " + (digits[3..6] + ("-" + digits[6..]))))
  {
  }

  /** With a country code the renderer shows `1`, then a space and the local
      rendering of the remaining digits. */
  lemma RenderCountry(digits: string)
    requires 1 <= |digits| <= 11 && digits[0] == '1'
    ensures Render(true, digits) ==
            if |digits| == 1 then "1" else "1" + (" " + Render(false, digits[1..]))
  {
  }

  /** The local mask filled with one to ten digits is what the unprefixed
      branches of the renderer build. */
  lemma LocalMaskFill(digits: string)
    requires 1 <= |digits| <= 10
    ensures Fill(LocalMask(), digits) == Render(false, digits)
  {
    FillAreaCode(digits);
    RenderLocal(digits);
  }

  /** The country-code band, for any local mask. */
  lemma FillCountryCode(local: seq<Piece>, digits: string)
    requires 1 <= |digits|
    ensures Fill([Slots(1), Literal(" ")] + local, digits) ==
            if |digits| == 1 then digits else digits[..1] + (" " + Fill(local, digits[1..]))
  {
    assert [Slots(1), Literal(" ")] + local == [Slots(1)] + ([Literal(" ")] + local);
    FillSlots(1, [Literal(" ")] + local, digits);
    if |digits| > 1 {
      FillLiteral(" ", local, digits[1..]);
    }
  }

  /** The country mask filled with a leading `1` and up to ten more digits is
      what the prefixed branches of the renderer build. */
  lemma CountryMaskFill(digits: string)
    requires 1 <= |digits| <= 11 && digits[0] == '1'
    ensures Fill(CountryMask(), digits) == Render(true, digits)
  {
    RenderCountry(digits);
    FillCountryCode(LocalMask(), digits);
    if |digits| > 1 {
      assert digits[..1] == "1";
      LocalMaskFill(digits[1..]);
    } else {
      assert digits == "1";
    }
  }

  // ---------------------------------------------------------------------
  // Properties of the final digit string

  /** With a country code the capped digits already start with `1`, so the
      second re-prefix (the `limitedNumbers[0] !== '1'` branch) never fires;
      without one they never start with `1`. */
  lemma FinalNumbersShape(previous: string, value: string)
    requires DigitsOf(value) != ""
    ensures var hasCountryCode := HasCountryCode(previous, value);
      var capped := Take(WorkingNumbers(previous, value), MaxDigits(hasCountryCode));
      && StartsWithOne(capped) == hasCountryCode
      && FinalNumbers(previous, value) == capped
      && 1 <= |capped| <= MaxDigits(hasCountryCode)
      && AllDigits(capped)
  {
    var numbers := DigitsOf(value);
    var working := WorkingNumbers(previous, value);
    assert AllDigits(working) by {
      if working != numbers {
        assert working == "1" + numbers;
        assert forall i :: 1 <= i < |working| ==> working[i] == numbers[i - 1];
      }
    }
  }

  /** The digits the mask shows: the working digits cut to 10 (or 11 with a
      country code), nothing else. */
  lemma DigitsPreserved(previous: string, value: string)
    requires DigitsOf(value) != ""
    ensures DigitsOf(FormatPhoneNumber(previous, value)) ==
            Take(WorkingNumbers(previous, value), MaxDigits(HasCountryCode(previous, value)))
  {
    var hasCountryCode := HasCountryCode(previous, value);
    var final := FinalNumbers(previous, value);
    FinalNumbersShape(previous, value);
    MaskFacts();
    MatchesMask(previous, value);
    FillDigits(Mask(hasCountryCode), final);
  }

  /** The formatted value is the mask filled with the final digits. */
  lemma MatchesMask(previous: string, value: string)
    requires DigitsOf(value) != ""
    ensures FormatPhoneNumber(previous, value) ==
            Fill(Mask(HasCountryCode(previous, value)), FinalNumbers(previous, value))
  {
    FinalNumbersShape(previous, value);
    var final := FinalNumbers(previous, value);
    if HasCountryCode(previous, value) {
      CountryMaskFill(final);
    } else {
      LocalMaskFill(final);
    }
  }

  /** Sticky country code: a `1` typed earlier stays in front even when the
      new digits lost it. */
  lemma StickyCountryCode(previous: string, value: string)
    requires PreviousHadOne(previous)
    requires DigitsOf(value) != "" && !StartsWithOne(DigitsOf(value))
    ensures WorkingNumbers(previous, value) == "1" + DigitsOf(value)
    ensures FinalNumbers(previous, value) == Take("1" + DigitsOf(value), 11)
    ensures StartsWithOne(FormatPhoneNumber(previous, value))
  {
    FinalNumbersShape(previous, value);
  }

  /** The shown value never exceeds the field's `maxLength` of 16, nor 14
      without a country code. */
  lemma LengthBound(previous: string, value: string)
    ensures |FormatPhoneNumber(previous, value)| <= 16
    ensures !HasCountryCode(previous, value) ==> |FormatPhoneNumber(previous, value)| <= 14
  {
    if DigitsOf(value) != "" {
      MatchesMask(previous, value);
      MaskFacts();
      FinalNumbersShape(previous, value);
      FillLength(Mask(HasCountryCode(previous, value)), FinalNumbers(previous, value));
    }
  }

  /** Formatting a shown value again, with itself as the previous value,
      leaves it unchanged. */
  lemma Idempotent(previous: string, value: string)
    ensures var r := FormatPhoneNumber(previous, value);
      FormatPhoneNumber(r, r) == r
  {
    var r := FormatPhoneNumber(previous, value);
    if DigitsOf(value) != "" {
      var hasCountryCode := HasCountryCode(previous, value);
      var final := FinalNumbers(previous, value);
      FinalNumbersShape(previous, value);
      DigitsPreserved(previous, value);
      assert DigitsOf(r) == final;
      assert HasCountryCode(r, r) == hasCountryCode;
      assert WorkingNumbers(r, r) == final;
      assert FinalNumbers(r, r) == final;
    }
  }
}
