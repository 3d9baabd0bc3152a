/**
 * The demo payment page: the card-number, expiry and CVC input formatters,
 * and the submit handler's validation chain, whose success branch clears the
 * `pendingBooking` storage entry.
 */
module PaymentPage {
  import opened Wrappers
  import opened Text
  import opened BookingPage

  // ---------------------------------------------------------------- card number

  /** `cleaned.match(/.{1,4}/g)`: consecutive runs of four characters, the last one possibly shorter. */
  function Chunks(s: string): (r: seq<string>)
    ensures |r| == (|s| + 3) / 4
    ensures forall i :: 0 <= i < |r| ==> 1 <= |r[i]| <= 4
    decreases |s|
  {
    if |s| == 0 then []
    else if |s| <= 4 then [s]
    else [s[..4]] + Chunks(s[4..])
  }

  /** `parts.join(' ')` */
  function JoinWithSpaces(parts: seq<string>): string {
    if |parts| == 0 then ""
    else if |parts| == 1 then parts[0]
    else parts[0] + " " + JoinWithSpaces(parts[1..])
  }

  /** `cleaned.match(/.{1,4}/g)?.join(' ') || cleaned`: `match` gives null on the empty string. */
  function Grouped(cleaned: string): string {
    var chunks := Chunks(cleaned);
    if chunks != [] && JoinWithSpaces(chunks) != "" then JoinWithSpaces(chunks) else cleaned
  }

  /** `formatCardNumber(value)` */
  function FormatCardNumber(value: string): (r: string)
    ensures |r| <= 19
    ensures forall i :: 0 <= i < |r| ==> (r[i] == ' ' <==> i % 5 == 4)
    ensures forall i :: 0 <= i < |r| && i % 5 != 4 ==> !IsWhitespace(r[i])
    ensures |r| > 0 ==> r[0] != ' ' && r[|r| - 1] != ' '
    ensures StripWhitespace(r) == Take(StripWhitespace(value), 16)
  {
    var cleaned := StripWhitespace(value);
    var formatted := Grouped(cleaned);
    FormattedCardShape(cleaned);
    Take(formatted, 19)
  }

  /**
   * Position `i` of a grouped card number `t` over its characters `s`: a
   * space at every fifth position, elsewhere the next character of `s`.
   */
  ghost predicate ShapeAt(t: string, s: string, i: int)
    requires 0 <= i < |t|
  {
    if i % 5 == 4 then t[i] == ' ' else i - i / 5 < |s| && t[i] == s[i - i / 5]
  }

  /** The layout of a grouped card number `t` over its characters `s`. */
  ghost predicate GroupedShape(t: string, s: string) {
    forall i :: 0 <= i < |t| ==> ShapeAt(t, s, i)
  }

  /** Joining the chunks of a non-empty string puts one space after every fourth character. */
  lemma {:induction false} JoinedChunksShape(s: string)
    requires |s| > 0
    ensures |JoinWithSpaces(Chunks(s))| == |s| + (|s| - 1) / 4
    ensures GroupedShape(JoinWithSpaces(Chunks(s)), s)
    decreases |s|
  {
    if |s| <= 4 {
      assert Chunks(s) == [s];
      forall i | 0 <= i < |s|
        ensures ShapeAt(s, s, i)
      {
        assert i / 5 == 0 && i % 5 == i;
      }
    } else {
      var rest := s[4..];
      JoinedChunksShape(rest);
      var tail := JoinWithSpaces(Chunks(rest));
      var chunks := Chunks(s);
      assert chunks == [s[..4]] + Chunks(rest);
      assert chunks[1..] == Chunks(rest);
      var t := s[..4] + " " + tail;
      assert JoinWithSpaces(chunks) == t;
      forall i | 0 <= i < |t|
        ensures ShapeAt(t, s, i)
      {
        ShapeAfterFirstChunk(s, tail, i);
      }
    }
  }

  /** One position of `s[..4] + " " + tail`, where `tail` groups `s[4..]`. */
  lemma ShapeAfterFirstChunk(s: string, tail: string, i: int)
    requires |s| > 4 && GroupedShape(tail, s[4..])
    requires 0 <= i < |s[..4] + " " + tail|
    ensures ShapeAt(s[..4] + " " + tail, s, i)
  {
    var t := s[..4] + " " + tail;
    if i >= 5 {
      var k := i - 5;
      assert k % 5 == i % 5 && k / 5 == i / 5 - 1;
      assert t[i] == tail[k];
      assert ShapeAt(tail, s[4..], k);
    } else {
      assert i / 5 == 0 && i % 5 == i;
    }
  }

  /** Removing the whitespace of a grouped prefix gives back the characters it groups. */
  lemma {:induction false} StripShaped(t: string, s: string)
    requires GroupedShape(t, s)
    requires forall i :: 0 <= i < |s| ==> !IsWhitespace(s[i])
    ensures |t| - |t| / 5 <= |s|
    ensures StripWhitespace(t) == s[..|t| - |t| / 5]
    decreases |t|
  {
    if |t| > 0 {
      var m := |t| - 1;
      var t' := t[..m];
      assert GroupedShape(t', s) by {
        forall i | 0 <= i < |t'| ensures ShapeAt(t', s, i) { assert ShapeAt(t, s, i); }
      }
      StripShaped(t', s);
      assert t[..m] == t';
      assert Keep(t, IsNotWhitespace) == Keep(t', IsNotWhitespace) + (if IsNotWhitespace(t[m]) then [t[m]] else []);
      assert ShapeAt(t, s, m);
      if m % 5 == 4 {
        assert (m + 1) / 5 == m / 5 + 1;
        assert t[m] == ' ';
      } else {
        assert (m + 1) / 5 == m / 5;
        var k := m - m / 5;
        assert t[m] == s[k];
        assert s[..k + 1] == s[..k] + [s[k]];
      }
    }
  }

  /** Grouping a whitespace-free string: its length and layout. */
  lemma GroupedFacts(cleaned: string)
    ensures |Grouped(cleaned)| == if cleaned == [] then 0 else |cleaned| + (|cleaned| - 1) / 4
    ensures GroupedShape(Grouped(cleaned), cleaned)
  {
    if cleaned == [] {
      assert Grouped(cleaned) == "";
    } else {
      JoinedChunksShape(cleaned);
    }
  }

  /** The arithmetic of truncating the grouped form of `n` characters to 19. */
  lemma TruncatedLength(n: nat, len: nat)
    requires len == if n == 0 then 0 else if n >= 16 then 19 else n + (n - 1) / 4
    ensures len > 0 ==> (len - 1) % 5 != 4
    ensures len - len / 5 == if n <= 16 then n else 16
  {
    if 0 < n < 16 {
      var q, b := (n - 1) / 4, (n - 1) % 4;
      assert n - 1 == 4 * q + b;
      assert len == 5 * q + b + 1;
      assert len / 5 == q;
    }
  }

  /** The grouped, truncated form of a whitespace-free string: its length, layout and characters. */
  lemma FormattedCardShape(cleaned: string)
    requires forall i :: 0 <= i < |cleaned| ==> !IsWhitespace(cleaned[i])
    ensures var r := Take(Grouped(cleaned), 19);
      && GroupedShape(r, cleaned)
      && (forall i :: 0 <= i < |r| ==> (r[i] == ' ' <==> i % 5 == 4))
      && (forall i :: 0 <= i < |r| && i % 5 != 4 ==> !IsWhitespace(r[i]))
      && (|r| > 0 ==> r[0] != ' ' && r[|r| - 1] != ' ')
      && StripWhitespace(r) == Take(cleaned, 16)
  {
    GroupedFacts(cleaned);
    var g := Grouped(cleaned);
    var r := Take(g, 19);
    assert GroupedShape(r, cleaned) by {
      forall i | 0 <= i < |r| ensures ShapeAt(r, cleaned, i) { assert ShapeAt(g, cleaned, i); }
    }
    TruncatedLength(|cleaned|, |r|);
    forall i | 0 <= i < |r|
      ensures (r[i] == ' ' <==> i % 5 == 4) && (i % 5 != 4 ==> !IsWhitespace(r[i]))
    {
      assert ShapeAt(r, cleaned, i);
    }
    StripShaped(r, cleaned);
  }

  /** Formatting a formatted card number changes nothing. */
  lemma CardNumberIdempotent(value: string)
    ensures FormatCardNumber(FormatCardNumber(value)) == FormatCardNumber(value)
  {
    var cleaned := StripWhitespace(value);
    var r := FormatCardNumber(value);
    var c2 := StripWhitespace(r);
    assert c2 == Take(cleaned, 16);
    if |cleaned| > 16 {
      GroupedFacts(cleaned);
      GroupedFacts(c2);
      FormattedCardShape(cleaned);
      FormattedCardShape(c2);
      assert r == Take(Grouped(cleaned), 19);
      var r2 := Take(Grouped(c2), 19);
      assert |r| == 19 && |r2| == 19;
      forall i | 0 <= i < 19 ensures r2[i] == r[i] {
        assert ShapeAt(r, cleaned, i) && ShapeAt(r2, c2, i);
        if i % 5 != 4 {
          assert i - i / 5 < 16;
        }
      }
    }
  }

  // ---------------------------------------------------------------- expiry

  /** The `expiry` field's expected form, `/^\d{2}\/\d{2}$/`. */
  predicate MatchesMMYY(s: string) {
    |s| == 5 && IsDigit(s[0]) && IsDigit(s[1]) && s[2] == '/' && IsDigit(s[3]) && IsDigit(s[4])
  }

  /** `formatExpiry(value)` */
  function FormatExpiry(value: string): (r: string)
    ensures var digits := DigitsOnly(value);
      && |r| <= 5
      && (|digits| < 2 ==> r == digits)
      && (|digits| >= 2 ==> |r| >= 3 && r[2] == '/' && forall i :: 0 <= i < |r| && i != 2 ==> IsDigit(r[i]))
      && DigitsOnly(r) == Take(digits, 4)
  {
    var cleaned := DigitsOnly(value);
    if |cleaned| >= 2 then
      var r := cleaned[..2] + "/" + Substring(cleaned, 2, 4);
      ExpiryDigits(cleaned);
      r
    else
      KeepAll(cleaned, IsDigit);
      cleaned
  }

  lemma ExpiryDigits(cleaned: string)
    requires |cleaned| >= 2
    requires forall i :: 0 <= i < |cleaned| ==> IsDigit(cleaned[i])
    ensures DigitsOnly(cleaned[..2] + "/" + Substring(cleaned, 2, 4)) == Take(cleaned, 4)
  {
    var n := |cleaned|;
    var end := if n < 4 then n else 4;
    var a, b := cleaned[..2], cleaned[2..end];
    assert Substring(cleaned, 2, 4) == b;
    KeepAll(a, IsDigit);
    KeepAll(b, IsDigit);
    assert Keep("/", IsDigit) == "";
    KeepAppend(a, "/", IsDigit);
    KeepAppend(a + "/", b, IsDigit);
    assert Keep(a + "/" + b, IsDigit) == a + b;
    assert a + b == cleaned[..end];
  }

  /** The expiry check of the submit handler passes on a formatted expiry exactly when four digits were typed. */
  lemma ExpiryCheckPasses(value: string)
    ensures MatchesMMYY(FormatExpiry(value)) <==> |DigitsOnly(value)| >= 4
  {
    var digits := DigitsOnly(value);
    var r := FormatExpiry(value);
    if |digits| >= 4 {
      assert |r| == 5;
    }
  }

  /** Formatting a formatted expiry changes nothing. */
  lemma ExpiryIdempotent(value: string)
    ensures FormatExpiry(FormatExpiry(value)) == FormatExpiry(value)
  {
    var digits := DigitsOnly(value);
    var r := FormatExpiry(value);
    if |digits| >= 2 {
      var d2 := DigitsOnly(r);
      assert d2 == Take(digits, 4);
      assert d2[..2] == digits[..2];
    } else {
      KeepAll(digits, IsDigit);
    }
  }

  // ---------------------------------------------------------------- CVC

  /** The CVC input's filter: `value.replace(/\D/g, '').substring(0, 3)`. */
  function CvcInput(value: string): (r: string)
    ensures |r| <= 3
    ensures forall i :: 0 <= i < |r| ==> IsDigit(r[i])
    ensures r <= DigitsOnly(value)
    ensures |r| == 3 <==> |DigitsOnly(value)| >= 3
    ensures |r| == if |DigitsOnly(value)| < 3 then |DigitsOnly(value)| else 3
  {
    Take(DigitsOnly(value), 3)
  }

  /** Filtering a filtered CVC changes nothing. */
  lemma CvcIdempotent(value: string)
    ensures CvcInput(CvcInput(value)) == CvcInput(value)
  {
    KeepAll(CvcInput(value), IsDigit);
  }

  // ---------------------------------------------------------------- submit

  /** Which step of `handleSubmit` stopped it, or `Passed`. */
  datatype PaymentCheck = MissingField | CardNotSixteen | ExpiryNotMMYY | CvcNotThree | Passed

  /** The card number the demo treats as the test card. */
  const TestCard := "4242424242424242"

  class PaymentForm {
    var email: string
    var cardNumber: string
    var expiry: string
    var cvc: string
    var name: string
    var loading: bool
    /** The `pendingBooking` storage entry. */
    var pendingBooking: Option<BookingDraft>
    /** The route navigated to, if any. */
    var route: Option<string>

    constructor (stored: Option<BookingDraft>)
      ensures email == "" && cardNumber == "" && expiry == "" && cvc == "" && name == ""
      ensures !loading && pendingBooking == stored && route == None
    {
      email, cardNumber, expiry, cvc, name := "", "", "", "", "";
      loading := false;
      pendingBooking := stored;
      route := None;
    }

    method EnterEmail(value: string)
      modifies this`email
      ensures email == value
    {
      email := value;
    }

    method EnterName(value: string)
      modifies this`name
      ensures name == value
    {
      name := value;
    }

    method EnterCardNumber(value: string)
      modifies this`cardNumber
      ensures cardNumber == FormatCardNumber(value)
    {
      cardNumber := FormatCardNumber(value);
    }

    method EnterExpiry(value: string)
      modifies this`expiry
      ensures expiry == FormatExpiry(value)
    {
      expiry := FormatExpiry(value);
    }

    method EnterCvc(value: string)
      modifies this`cvc
      ensures cvc == CvcInput(value)
    {
      cvc := CvcInput(value);
    }

    /**
     * `handleSubmit`: four checks in order, each returning early without
     * touching the pending booking; then the (timer-delayed) success branch,
     * which always runs because the card length was already checked.
     */
    method Submit() returns (check: PaymentCheck)
      modifies this`loading, this`pendingBooking, this`route
      ensures check == MissingField <==> email == "" || cardNumber == "" || expiry == "" || cvc == "" || name == ""
      ensures check == CardNotSixteen <==> check != MissingField && |StripWhitespace(cardNumber)| != 16
      ensures check == ExpiryNotMMYY <==>
                check !in {MissingField, CardNotSixteen} && !MatchesMMYY(expiry)
      ensures check == CvcNotThree <==>
                check !in {MissingField, CardNotSixteen, ExpiryNotMMYY} && |cvc| != 3
      ensures check != Passed ==> loading == old(loading) && pendingBooking == old(pendingBooking) && route == old(route)
      ensures check == Passed ==> loading && pendingBooking == None && route == Some("/payment-success")
    {
      if email == "" || cardNumber == "" || expiry == "" || cvc == "" || name == "" {
        return MissingField;
      }
      var cleanedCard := StripWhitespace(cardNumber);
      if |cleanedCard| != 16 {
        return CardNotSixteen;
      }
      if !MatchesMMYY(expiry) {
        return ExpiryNotMMYY;
      }
      if |cvc| != 3 {
        return CvcNotThree;
      }
      loading := true;
      var isTestCard := cleanedCard == TestCard;
      if isTestCard || |cleanedCard| == 16 {
        pendingBooking := None;
        route := Some("/payment-success");
      } else {
        // The failure alert: unreachable, the length check above already passed.
        assert false;
      }
      check := Passed;
    }
  }

  /**
   * Inputs typed through the three formatters pass the card, expiry and CVC
   * checks exactly when at least 16 non-blank characters, four digits and
   * three digits were typed.
   */
  lemma FormattedInputsPassChecks(card: string, expiry: string, cvc: string)
    ensures |StripWhitespace(FormatCardNumber(card))| == 16 <==> |StripWhitespace(card)| >= 16
    ensures MatchesMMYY(FormatExpiry(expiry)) <==> |DigitsOnly(expiry)| >= 4
    ensures |CvcInput(cvc)| == 3 <==> |DigitsOnly(cvc)| >= 3
  {
    ExpiryCheckPasses(expiry);
  }
}
