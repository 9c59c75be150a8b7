/**
 * The billing dialog's form logic: card-network detection, the three input
 * formatters, the card and PayPal validators, the per-field error lookup and the
 * assembly of the payment method that is handed to the caller.
 *
 * Regular expressions are written out as predicates on character sequences.
 */
module PaymentForm {
  import opened Strings
  import opened Decimal

  // ---------------------------------------------------------------------------
  // Card network
  // ---------------------------------------------------------------------------

  /** `/^4[0-9]{12}(?:[0-9]{3})?$/` */
  predicate IsVisa(n: string) {
    (|n| == 13 || |n| == 16) && n[0] == '4' && AllDigits(n)
  }

  /** `/^5[1-5][0-9]{14}$/` */
  predicate IsMastercard(n: string) {
    |n| == 16 && n[0] == '5' && '1' <= n[1] <= '5' && AllDigits(n)
  }

  /** `/^3[47][0-9]{13}$/` */
  predicate IsAmex(n: string) {
    |n| == 15 && n[0] == '3' && (n[1] == '4' || n[1] == '7') && AllDigits(n)
  }

  /** `/^6(?:011|5[0-9]{2})[0-9]{12}$/` */
  predicate IsDiscover(n: string) {
    |n| == 16 && n[0] == '6' && (n[1..4] == "011" || n[1] == '5') && AllDigits(n)
  }

  /**
   * `getCardNetworkFromNumber`: the tests run on the number with white space removed,
   * in the order Visa, Mastercard, American Express, Discover. The four patterns start
   * with different digits, so at most one can match and the order never matters.
   */
  function CardNetwork(cardNumber: string): (r: string)
    ensures var n := RemoveSpaces(cardNumber);
      (r == "Visa" <==> IsVisa(n)) && (r == "Mastercard" <==> IsMastercard(n)) &&
      (r == "American Express" <==> IsAmex(n)) && (r == "Discover" <==> IsDiscover(n)) &&
      (r == "" <==> !IsVisa(n) && !IsMastercard(n) && !IsAmex(n) && !IsDiscover(n))
    ensures r != "" ==> AllDigits(RemoveSpaces(cardNumber)) && |RemoveSpaces(cardNumber)| in {13, 15, 16}
  {
    var n := RemoveSpaces(cardNumber);
    if IsVisa(n) then "Visa"
    else if IsMastercard(n) then "Mastercard"
    else if IsAmex(n) then "American Express"
    else if IsDiscover(n) then "Discover"
    else ""
  }

  // ---------------------------------------------------------------------------
  // Input formatters
  // ---------------------------------------------------------------------------

  /** `d.replace(/(\d{4})/g, "$1 ")` on a string of digits: a space after every full group of four. */
  function GroupByFour(d: string): (g: string)
    requires AllDigits(d)
  {
    if |d| >= 4 then d[..4] + " " + GroupByFour(d[4..]) else d
  }

  /** The digits a card-number input keeps: all digits typed, at most 19. */
  function CardDigits(raw: string): (d: string)
    ensures AllDigits(d) && |d| <= 19
  {
    Take(KeepDigits(raw), 19)
  }

  /** `handleCardNumberChange` */
  function FormatCardNumber(raw: string): string {
    Trim(GroupByFour(CardDigits(RemoveSpaces(raw))))
  }

  /** Dropping white space first does not change the digits kept. */
  lemma CardDigitsIgnoreSpaces(raw: string)
    ensures CardDigits(RemoveSpaces(raw)) == CardDigits(raw)
  {
    KeepDigitsAfterRemoveSpaces(raw);
  }

  /**
   * Digits in groups of four separated by single spaces: a space exactly at every fifth
   * position, digits elsewhere, and no space at the end.
   */
  predicate GroupedByFour(s: string) {
    (forall i :: 0 <= i < |s| ==> if i % 5 == 4 then s[i] == ' ' else IsDigit(s[i])) &&
    (s == [] || s[|s| - 1] != ' ')
  }

  /** Position `i` of a grouped text: a space at every fifth position, otherwise digit `i - i / 5`. */
  predicate GroupedAt(g: string, d: string, i: int)
    requires 0 <= i < |g|
  {
    if i % 5 == 4 then g[i] == ' ' else 0 <= i - i / 5 < |d| && g[i] == d[i - i / 5]
  }

  lemma {:induction false} GroupByFourLength(d: string)
    requires AllDigits(d)
    ensures |GroupByFour(d)| == |d| + |d| / 4
    decreases |d|
  {
    if |d| >= 4 {
      GroupByFourLength(d[4..]);
    }
  }

  lemma {:induction false} GroupByFourAt(d: string, i: nat)
    requires AllDigits(d) && i < |GroupByFour(d)|
    ensures GroupedAt(GroupByFour(d), d, i)
    decreases i
  {
    if |d| >= 4 && i >= 5 {
      var rest := GroupByFour(d[4..]);
      assert GroupByFour(d)[i] == rest[i - 5];
      GroupByFourAt(d[4..], i - 5);
      assert (i - 5) % 5 == i % 5 && (i - 5) / 5 == i / 5 - 1;
    }
  }

  lemma {:induction false} GroupByFourDigits(d: string)
    requires AllDigits(d)
    ensures RemoveSpaces(GroupByFour(d)) == d
    decreases |d|
  {
    if |d| >= 4 {
      var rest := GroupByFour(d[4..]);
      GroupByFourDigits(d[4..]);
      RemoveSpacesAppend(d[..4] + " ", rest);
      RemoveSpacesAppend(d[..4], " ");
      assert d == d[..4] + d[4..];
    }
  }

  /** `r` shows the digits `d` in groups of four. */
  predicate ShowsGrouped(r: string, d: string) {
    GroupedByFour(r) &&
    forall i :: 0 <= i < |r| && i % 5 != 4 ==> 0 <= i - i / 5 < |d| && r[i] == d[i - i / 5]
  }

  /** The trailing space the grouping leaves after a full last group is trimmed, and nothing else. */
  lemma TrimGrouped(d: string)
    requires AllDigits(d)
    ensures var g := GroupByFour(d);
      Trim(g) == if |d| > 0 && |d| % 4 == 0 then g[..|g| - 1] else g
  {
    var g := GroupByFour(d);
    if |d| > 0 {
      GroupedEnds(d);
      if |d| % 4 == 0 {
        TrimOneTrailing(g);
      } else {
        TrimUnpadded(g);
      }
    } else {
      TrimUnpadded(g);
    }
  }

  /** The grouping starts with a digit and ends with one, or, after a full last group, with a space after a digit. */
  lemma GroupedEnds(d: string)
    requires AllDigits(d) && |d| > 0
    ensures var g := GroupByFour(d);
      |g| >= 1 && !IsSpace(g[0]) &&
      (|d| % 4 == 0 ==> |g| >= 2 && IsSpace(g[|g| - 1]) && !IsSpace(g[|g| - 2])) &&
      (|d| % 4 != 0 ==> !IsSpace(g[|g| - 1]))
  {
    var g := GroupByFour(d);
    GroupByFourLength(d);
    var q, m := |d| / 4, |d| % 4;
    assert |g| - 1 == 5 * q + m - 1;
    assert !IsSpace(g[0]) by {
      GroupByFourAt(d, 0);
    }
    if m == 0 {
      assert IsSpace(g[|g| - 1]) by {
        GroupByFourAt(d, |g| - 1);
        DivModFive(|g| - 1, q - 1, 4);
      }
      assert !IsSpace(g[|g| - 2]) by {
        GroupByFourAt(d, |g| - 2);
        DivModFive(|g| - 2, q - 1, 3);
      }
    } else {
      assert !IsSpace(g[|g| - 1]) by {
        GroupByFourAt(d, |g| - 1);
        DivModFive(|g| - 1, q, m - 1);
      }
    }
  }

  lemma DivModFive(n: int, q: int, r: int)
    requires 0 <= r < 5 && n == 5 * q + r
    ensures n % 5 == r && n / 5 == q
  {
  }

  /** Removing the spaces from the shown number gives the first 19 digits typed. */
  lemma FormattedCardNumberDigits(raw: string)
    ensures RemoveSpaces(FormatCardNumber(raw)) == CardDigits(raw)
  {
    var d := CardDigits(raw);
    var g := GroupByFour(d);
    assert FormatCardNumber(raw) == Trim(g) by {
      CardDigitsIgnoreSpaces(raw);
    }
    assert RemoveSpaces(g) == d by {
      GroupByFourDigits(d);
    }
    RemoveSpacesTrim(g);
  }

  /** What the card-number input shows, described without the regular expressions. */
  lemma FormatCardNumberShape(raw: string)
    ensures var r := FormatCardNumber(raw);
      var d := CardDigits(raw);
      ShowsGrouped(r, d) &&
      RemoveSpaces(r) == d &&
      |r| == (if d == [] then 0 else |d| + (|d| - 1) / 4)
  {
    var d, r := CardDigits(raw), FormatCardNumber(raw);
    assert r == Trim(GroupByFour(d)) by {
      CardDigitsIgnoreSpaces(raw);
    }
    assert ShowsGrouped(r, d) by {
      TrimmedGrouping(d);
      GroupByFourAll(d);
      GroupedPrefix(GroupByFour(d), r, d);
    }
    assert RemoveSpaces(r) == d by {
      FormattedCardNumberDigits(raw);
    }
    assert |r| == (if d == [] then 0 else |d| + (|d| - 1) / 4) by {
      TrimmedGrouping(d);
    }
  }

  /** Every position of the grouping is a separating space or the digit it shows. */
  lemma GroupByFourAll(d: string)
    requires AllDigits(d)
    ensures forall i :: 0 <= i < |GroupByFour(d)| ==> GroupedAt(GroupByFour(d), d, i)
  {
    forall i | 0 <= i < |GroupByFour(d)|
      ensures GroupedAt(GroupByFour(d), d, i)
    {
      GroupByFourAt(d, i);
    }
  }

  /** A prefix of a grouping that does not end in white space shows the digits grouped. */
  lemma GroupedPrefix(g: string, r: string, d: string)
    requires AllDigits(d) && |r| <= |g| && r == g[..|r|]
    requires forall i :: 0 <= i < |g| ==> GroupedAt(g, d, i)
    requires r == [] || !IsSpace(r[|r| - 1])
    ensures ShowsGrouped(r, d)
  {
    forall i | 0 <= i < |r|
      ensures if i % 5 == 4 then r[i] == ' ' else IsDigit(r[i]) && 0 <= i - i / 5 < |d| && r[i] == d[i - i / 5]
    {
      assert r[i] == g[i];
      assert GroupedAt(g, d, i);
    }
  }

  /** Trimming the grouping of `d` keeps a prefix of it, with no white space at the end. */
  lemma TrimmedGrouping(d: string)
    requires AllDigits(d)
    ensures var g, r := GroupByFour(d), Trim(GroupByFour(d));
      |r| <= |g| && r == g[..|r|] && (r == [] || !IsSpace(r[|r| - 1])) &&
      |r| == (if d == [] then 0 else |d| + (|d| - 1) / 4)
  {
    var g := GroupByFour(d);
    assert |g| == |d| + |d| / 4 by {
      GroupByFourLength(d);
    }
    TrimEnds(g);
    TrimGrouped(d);
  }

  /** Formatting the shown number again changes nothing. */
  lemma FormatCardNumberIdempotent(raw: string)
    ensures FormatCardNumber(FormatCardNumber(raw)) == FormatCardNumber(raw)
  {
    var r := FormatCardNumber(raw);
    var d := CardDigits(raw);
    assert CardDigits(RemoveSpaces(r)) == d by {
      FormattedCardNumberDigits(raw);
      DigitsKept(d);
    }
    assert r == Trim(GroupByFour(d)) by {
      CardDigitsIgnoreSpaces(raw);
    }
  }

  /** The network detected from the shown number is that of the digits typed. */
  lemma NetworkOfFormattedNumber(raw: string)
    ensures CardNetwork(FormatCardNumber(raw)) == CardNetwork(CardDigits(raw))
  {
    FormattedCardNumberDigits(raw);
  }

  /** `handleExpiryChange`: digits only; from two digits on, "MM/" and up to two more digits. */
  function FormatExpiry(raw: string): (r: string)
    ensures |r| <= 5
    ensures |KeepDigits(raw)| < 2 ==> r == KeepDigits(raw)
    ensures |KeepDigits(raw)| >= 2 ==> |r| >= 3 && r[2] == '/' && AllDigits(r[..2]) && AllDigits(r[3..])
    ensures KeepDigits(r) == Take(KeepDigits(raw), 4)
  {
    var v := KeepDigits(raw);
    if |v| >= 2 then
      var tail := v[2..if |v| < 4 then |v| else 4];
      SlashedDigits(v[..2], tail);
      assert v[..2] + tail == Take(v, 4);
      v[..2] + "/" + tail
    else
      v
  }

  /** Formatting a shown expiry again changes nothing. */
  lemma FormatExpiryIdempotent(raw: string)
    ensures FormatExpiry(FormatExpiry(raw)) == FormatExpiry(raw)
  {
    var v := KeepDigits(raw);
    if |v| >= 2 {
      var tail := v[2..if |v| < 4 then |v| else 4];
      SlashedDigits(v[..2], tail);
      assert (v[..2] + tail)[..2] == v[..2] && (v[..2] + tail)[2..] == tail;
    }
  }

  /** Only the slash of a shown expiry is dropped when its digits are kept. */
  lemma SlashedDigits(month: string, tail: string)
    requires |month| == 2 && AllDigits(month) && AllDigits(tail)
    ensures KeepDigits(month + "/" + tail) == month + tail
  {
    KeepDigitsAppend(month + "/", tail);
    KeepDigitsAppend(month, "/");
  }

  /** `handleCvcChange`: digits only, at most four. */
  function FormatCvc(raw: string): (r: string)
    ensures AllDigits(r) && |r| <= 4 && |r| <= |KeepDigits(raw)|
    ensures r == KeepDigits(raw)[..|r|]
    ensures |KeepDigits(raw)| >= 4 ==> |r| == 4
    ensures |KeepDigits(raw)| < 4 ==> r == KeepDigits(raw)
  {
    Take(KeepDigits(raw), 4)
  }

  lemma FormatCvcIdempotent(raw: string)
    ensures FormatCvc(FormatCvc(raw)) == FormatCvc(raw)
  {
  }

  // ---------------------------------------------------------------------------
  // Validation
  // ---------------------------------------------------------------------------

  datatype FormData = FormData(
    cardholderName: string,
    cardNumber: string,
    expiryDate: string,
    cvc: string,
    country: string,
    paypalEmail: string)

  /** The form fields, in declaration order. */
  datatype Field = CardholderName | CardNumber | ExpiryDate | Cvc | Country | PaypalEmail

  datatype ValidationError = ValidationError(field: Field, message: string)

  function Rank(f: Field): nat {
    match f
    case CardholderName => 0
    case CardNumber => 1
    case ExpiryDate => 2
    case Cvc => 3
    case Country => 4
    case PaypalEmail => 5
  }

  /** The message each validator attaches to a field it rejects. */
  function Message(f: Field): string {
    match f
    case CardholderName => "Cardholder name is required"
    case CardNumber => "Invalid card number"
    case ExpiryDate => "Use MM/YY format"
    case Cvc => "Invalid CVC"
    case Country => ""
    case PaypalEmail => "Please enter a valid email address"
  }

  const EmptyForm: FormData := FormData("", "", "", "", "United States", "")

  /** `data.cardholderName.trim()` is non-empty. */
  predicate NameGiven(name: string) { exists i :: 0 <= i < |name| && !IsSpace(name[i]) }

  /** A name is given exactly when trimming leaves something of it. */
  lemma NameGivenWhenTrimmed(name: string)
    ensures NameGiven(name) <==> Trim(name) != ""
  {
    TrimEnds(name);
  }

  /** The number without white space has at least 13 characters. */
  predicate NumberLongEnough(number: string) { |RemoveSpaces(number)| >= 13 }

  /** `/^(0[1-9]|1[0-2])\/\d{2}$/` */
  predicate ValidExpiry(e: string) {
    |e| == 5 &&
    ((e[0] == '0' && '1' <= e[1] <= '9') || (e[0] == '1' && '0' <= e[1] <= '2')) &&
    e[2] == '/' && IsDigit(e[3]) && IsDigit(e[4])
  }

  predicate CvcLongEnough(cvc: string) { |cvc| >= 3 }

  predicate CardFormValid(data: FormData) {
    NameGiven(data.cardholderName) && NumberLongEnough(data.cardNumber) &&
    ValidExpiry(data.expiryDate) && CvcLongEnough(data.cvc)
  }

  predicate HasError(errors: seq<ValidationError>, f: Field) {
    exists i :: 0 <= i < |errors| && errors[i].field == f
  }

  /** Errors are listed in field order, at most one per field. */
  predicate InFieldOrder(errors: seq<ValidationError>) {
    forall i, j :: 0 <= i < j < |errors| ==> Rank(errors[i].field) < Rank(errors[j].field)
  }

  /** `errors` is the card validator's answer for `data`. */
  predicate CardErrorsFor(data: FormData, errors: seq<ValidationError>) {
    InFieldOrder(errors) &&
    (forall i :: 0 <= i < |errors| ==> errors[i].message == Message(errors[i].field)) &&
    (HasError(errors, CardholderName) <==> !NameGiven(data.cardholderName)) &&
    (HasError(errors, CardNumber) <==> !NumberLongEnough(data.cardNumber)) &&
    (HasError(errors, ExpiryDate) <==> !ValidExpiry(data.expiryDate)) &&
    (HasError(errors, Cvc) <==> !CvcLongEnough(data.cvc)) &&
    !HasError(errors, Country) && !HasError(errors, PaypalEmail)
  }

  /** What one check adds to the error list: nothing when it passes, else the field's error. */
  function Check(ok: bool, f: Field): seq<ValidationError> {
    if ok then [] else [ValidationError(f, Message(f))]
  }

  /** Every error is for a field ranked below `k`, and carries its field's message. */
  predicate FieldsBelow(errors: seq<ValidationError>, k: nat) {
    forall i :: 0 <= i < |errors| ==> Rank(errors[i].field) < k && errors[i].message == Message(errors[i].field)
  }

  /** Appending one check's outcome keeps the list in field order. */
  lemma PushCheckOrdered(errors: seq<ValidationError>, ok: bool, f: Field)
    requires InFieldOrder(errors) && FieldsBelow(errors, Rank(f))
    ensures InFieldOrder(errors + Check(ok, f)) && FieldsBelow(errors + Check(ok, f), Rank(f) + 1)
  {
  }

  /** Appending one check's outcome adds an error for that field only, and only when it fails. */
  lemma PushCheckFields(errors: seq<ValidationError>, ok: bool, f: Field, g: Field)
    ensures HasError(errors + Check(ok, f), g) <==> HasError(errors, g) || (!ok && g == f)
  {
    var after := errors + Check(ok, f);
    if HasError(errors, g) {
      var i :| 0 <= i < |errors| && errors[i].field == g;
      assert after[i] == errors[i];
    }
    if !ok {
      assert after[|errors|].field == f;
    }
  }

  /** The list the four card checks build is in field order, with each field's message. */
  lemma CardChecksOrdered(name: bool, number: bool, expiry: bool, cvc: bool)
    ensures var errors := Check(name, CardholderName) + Check(number, CardNumber) + Check(expiry, ExpiryDate) + Check(cvc, Cvc);
      InFieldOrder(errors) && FieldsBelow(errors, 4) && |errors| <= 4
  {
    var e1 := Check(name, CardholderName);
    PushCheckOrdered([], name, CardholderName);
    assert [] + e1 == e1;
    var e2 := e1 + Check(number, CardNumber);
    PushCheckOrdered(e1, number, CardNumber);
    var e3 := e2 + Check(expiry, ExpiryDate);
    PushCheckOrdered(e2, expiry, ExpiryDate);
    PushCheckOrdered(e3, cvc, Cvc);
  }

  /** The list the four card checks build has an error for a field exactly when its check fails. */
  lemma CardChecksFields(name: bool, number: bool, expiry: bool, cvc: bool, g: Field)
    ensures var errors := Check(name, CardholderName) + Check(number, CardNumber) + Check(expiry, ExpiryDate) + Check(cvc, Cvc);
      HasError(errors, g) <==>
        (!name && g == CardholderName) || (!number && g == CardNumber) || (!expiry && g == ExpiryDate) || (!cvc && g == Cvc)
  {
    var e1 := Check(name, CardholderName);
    PushCheckFields([], name, CardholderName, g);
    assert [] + e1 == e1;
    var e2 := e1 + Check(number, CardNumber);
    PushCheckFields(e1, number, CardNumber, g);
    var e3 := e2 + Check(expiry, ExpiryDate);
    PushCheckFields(e2, expiry, ExpiryDate, g);
    PushCheckFields(e3, cvc, Cvc, g);
  }

  /** `validateCardForm`: checks name, number, expiry and CVC in that order, pushing one error per failure. */
  method ValidateCardForm(data: FormData) returns (errors: seq<ValidationError>)
    ensures errors == CardErrors(data)
    ensures |errors| <= 4
    ensures errors == [] <==> CardFormValid(data)
  {
    var nameGiven := NameGiven(data.cardholderName);
    var cardNumber := RemoveSpaces(data.cardNumber);
    var numberOk := !(cardNumber == "" || |cardNumber| < 13);
    var expiryOk := ValidExpiry(data.expiryDate);
    var cvcOk := !(data.cvc == "" || |data.cvc| < 3);
    errors := [];
    if !nameGiven {
      errors := errors + [ValidationError(CardholderName, "Cardholder name is required")];
    }
    ghost var afterName := errors;
    if !numberOk {
      errors := errors + [ValidationError(CardNumber, "Invalid card number")];
    }
    ghost var afterNumber := errors;
    if !expiryOk {
      errors := errors + [ValidationError(ExpiryDate, "Use MM/YY format")];
    }
    ghost var afterExpiry := errors;
    if !cvcOk {
      errors := errors + [ValidationError(Cvc, "Invalid CVC")];
    }
    assert afterName == Check(nameGiven, CardholderName);
    assert afterNumber == afterName + Check(numberOk, CardNumber);
    assert afterExpiry == afterNumber + Check(expiryOk, ExpiryDate);
    assert errors == afterExpiry + Check(cvcOk, Cvc);
    CardErrorsCount(data);
  }

  /** At most one error per check, and none exactly when every check passes. */
  lemma CardErrorsCount(data: FormData)
    ensures |CardErrors(data)| <= 4
    ensures CardErrors(data) == [] <==> CardFormValid(data)
  {
  }

  /** The list the card validator builds for `data`: one check per field, in field order. */
  function CardErrors(data: FormData): seq<ValidationError> {
    Check(NameGiven(data.cardholderName), CardholderName) + Check(NumberLongEnough(data.cardNumber), CardNumber) +
    Check(ValidExpiry(data.expiryDate), ExpiryDate) + Check(CvcLongEnough(data.cvc), Cvc)
  }

  /** The four checks, applied to `data`, build the validator's answer. */
  lemma CardChecksDescribe(data: FormData)
    ensures var errors := CardErrors(data);
      CardErrorsFor(data, errors) && |errors| <= 4 && (errors == [] <==> CardFormValid(data))
  {
    var name, number, expiry, cvc :=
      NameGiven(data.cardholderName), NumberLongEnough(data.cardNumber), ValidExpiry(data.expiryDate), CvcLongEnough(data.cvc);
    var errors := Check(name, CardholderName) + Check(number, CardNumber) + Check(expiry, ExpiryDate) + Check(cvc, Cvc);
    CardChecksOrdered(name, number, expiry, cvc);
    CardChecksFields(name, number, expiry, cvc, CardholderName);
    CardChecksFields(name, number, expiry, cvc, CardNumber);
    CardChecksFields(name, number, expiry, cvc, ExpiryDate);
    CardChecksFields(name, number, expiry, cvc, Cvc);
    CardChecksFields(name, number, expiry, cvc, Country);
    CardChecksFields(name, number, expiry, cvc, PaypalEmail);
    assert errors != [] ==> HasError(errors, errors[0].field);
  }

  /** A valid expiry is two digits naming a month from 1 to 12, a slash and two digits. */
  lemma ValidExpiryMeansMonth(e: string)
    ensures ValidExpiry(e) <==>
      |e| == 5 && AllDigits(e[..2]) && e[2] == '/' && AllDigits(e[3..]) && 1 <= ParseNat(e[..2]) <= 12
  {
    if |e| == 5 && AllDigits(e[..2]) {
      var m := e[..2];
      assert m[..1] == [e[0]] && m[..1][..0] == [];
      assert ParseNat(m[..1]) == DigitValue(e[0]);
      assert ParseNat(m) == DigitValue(e[0]) * 10 + DigitValue(e[1]);
      assert e[3..] == [e[3], e[4]];
    }
  }

  /** The expiry formatter leaves a valid expiry as it is. */
  lemma FormatExpiryKeepsValid(e: string)
    requires ValidExpiry(e)
    ensures FormatExpiry(e) == e
  {
    var month, year := e[..2], e[3..];
    assert e == month + "/" + year;
    assert AllDigits(month) && AllDigits(year) by {
      assert month == [e[0], e[1]] && year == [e[3], e[4]];
    }
    SlashedDigits(month, year);
    var v := month + year;
    assert v[..2] == month && v[2..4] == year;
  }

  /** No character of `s` is white space or '@' (`[^\s@]`). */
  predicate NoSpaceOrAt(s: string) {
    forall k :: 0 <= k < |s| ==> !IsSpace(s[k]) && s[k] != '@'
  }

  /** `/^[^\s@]+@[^\s@]+\.[^\s@]+$/`: the '@' at `i`, the dot at `j`. */
  predicate EmailSplitAt(e: string, i: int, j: int) {
    0 < i && i + 1 < j && j + 1 < |e| && e[i] == '@' && e[j] == '.' &&
    NoSpaceOrAt(e[..i]) && NoSpaceOrAt(e[i + 1..j]) && NoSpaceOrAt(e[j + 1..])
  }

  predicate EmailMatches(e: string) {
    exists i, j | 0 <= i < |e| && 0 <= j < |e| :: EmailSplitAt(e, i, j)
  }

  /**
   * The same language without the pattern: no white space, exactly one '@', not first,
   * and a '.' after it that is neither right after the '@' nor last.
   */
  predicate PlainEmail(e: string) {
    NoSpaces(e) &&
    exists i | 0 < i < |e| :: e[i] == '@' && (forall k | 0 <= k < |e| && e[k] == '@' :: k == i) &&
      exists j | i + 1 < j < |e| - 1 :: e[j] == '.'
  }

  lemma EmailMatchesIsPlain(e: string)
    ensures EmailMatches(e) <==> PlainEmail(e)
  {
    if EmailMatches(e) {
      var i, j :| 0 <= i < |e| && 0 <= j < |e| && EmailSplitAt(e, i, j);
      forall k | 0 <= k < |e|
        ensures !IsSpace(e[k]) && (e[k] == '@' ==> k == i)
      {
        if k < i {
          assert e[k] == e[..i][k];
        } else if i < k < j {
          assert e[k] == e[i + 1..j][k - i - 1];
        } else if j < k {
          assert e[k] == e[j + 1..][k - j - 1];
        }
      }
      assert PlainEmail(e);
    }
    if PlainEmail(e) {
      var i :| 0 < i < |e| && e[i] == '@' && (forall k | 0 <= k < |e| && e[k] == '@' :: k == i) &&
        exists j | i + 1 < j < |e| - 1 :: e[j] == '.';
      var j :| i + 1 < j < |e| - 1 && e[j] == '.';
      assert NoSpaceOrAt(e[..i]);
      assert NoSpaceOrAt(e[i + 1..j]);
      assert NoSpaceOrAt(e[j + 1..]);
      assert EmailSplitAt(e, i, j);
    }
  }

  /** `validatePayPalForm` */
  /** The list the PayPal validator builds for `data`. */
  function PayPalErrors(data: FormData): seq<ValidationError> {
    Check(EmailMatches(data.paypalEmail), PaypalEmail)
  }

  method ValidatePayPalForm(data: FormData) returns (errors: seq<ValidationError>)
    ensures errors == PayPalErrors(data)
    ensures |errors| <= 1
    ensures errors == [] <==> EmailMatches(data.paypalEmail)
    ensures forall i :: 0 <= i < |errors| ==> errors[i] == ValidationError(PaypalEmail, Message(PaypalEmail))
  {
    errors := [];
    if !EmailMatches(data.paypalEmail) {
      errors := errors + [ValidationError(PaypalEmail, "Please enter a valid email address")];
    }
  }

  /** `getErrorMessage`: the message of the first error for the field, or "". */
  function ErrorMessage(errors: seq<ValidationError>, f: Field): (r: string)
    ensures !HasError(errors, f) ==> r == ""
  {
    if errors == [] then ""
    else if errors[0].field == f then errors[0].message
    else
      var r := ErrorMessage(errors[1..], f);
      assert forall i :: 1 <= i < |errors| ==> errors[i] == errors[1..][i - 1];
      r
  }

  /** The message shown is that of the first error for the field. */
  lemma {:induction false} ErrorMessageIsFirst(errors: seq<ValidationError>, f: Field, i: nat)
    requires i < |errors| && errors[i].field == f
    requires forall j :: 0 <= j < i ==> errors[j].field != f
    ensures ErrorMessage(errors, f) == errors[i].message
  {
    if i > 0 {
      assert errors[0].field != f;
      ErrorMessageIsFirst(errors[1..], f, i - 1);
    }
  }

  /** `ErrorMessageIsFirst` for every position at once. */
  lemma ErrorMessageOfFirst(errors: seq<ValidationError>, f: Field)
    ensures forall i :: 0 <= i < |errors| && errors[i].field == f && (forall j :: 0 <= j < i ==> errors[j].field != f) ==>
      ErrorMessage(errors, f) == errors[i].message
  {
    forall i | 0 <= i < |errors| && errors[i].field == f && (forall j :: 0 <= j < i ==> errors[j].field != f) {
      ErrorMessageIsFirst(errors, f, i);
    }
  }

  /** After the card validator, each field shows its own message exactly when it was rejected. */
  lemma CardErrorMessages(data: FormData, errors: seq<ValidationError>, f: Field)
    requires CardErrorsFor(data, errors)
    ensures ErrorMessage(errors, f) == if HasError(errors, f) then Message(f) else ""
  {
    if HasError(errors, f) {
      var i :| 0 <= i < |errors| && errors[i].field == f;
      assert forall j :: 0 <= j < i ==> errors[j].field != f;
      ErrorMessageIsFirst(errors, f, i);
    }
  }

  // ---------------------------------------------------------------------------
  // The emitted payment method
  // ---------------------------------------------------------------------------

  datatype MethodType = CreditCard | DebitCard | PayPal | BankTransfer
  datatype Status = Active | Expired | Inactive

  datatype PaymentMethod = PaymentMethod(
    id: string,
    methodType: MethodType,
    cardNetwork: Option<string>,
    cardNumber: string,
    expiryDate: string,
    cardholderName: string,
    isDefault: bool,
    lastUsed: string,
    status: Status,
    autopayEnabled: bool)

  /** `` `pm_${Date.now()}` `` for the clock reading `now`. */
  function FreshId(now: nat): (r: string)
    ensures |r| >= 4
    ensures r[..3] == "pm_" && AllDigits(r[3..]) && ParseNat(r[3..]) == now
  {
    ParseNatToString(now);
    "pm_" + NatToString(now)
  }

  /** The bookkeeping fields a new method takes from the method being edited, if any. */
  datatype Inherited = Inherited(id: string, isDefault: bool, lastUsed: string, status: Status, autopayEnabled: bool)

  /**
   * `id` and `lastUsed` fall back when absent or empty (`||`); `isDefault`, `status` and
   * `autopayEnabled` only when there is no method being edited (`??`).
   */
  function Inherit(editing: Option<PaymentMethod>, now: nat, today: string): (r: Inherited)
    ensures editing.None? ==> r == Inherited(FreshId(now), false, today, Active, true)
    ensures editing.Some? ==>
      r.isDefault == editing.value.isDefault && r.status == editing.value.status &&
      r.autopayEnabled == editing.value.autopayEnabled &&
      r.id == (if editing.value.id != "" then editing.value.id else FreshId(now)) &&
      r.lastUsed == (if editing.value.lastUsed != "" then editing.value.lastUsed else today)
  {
    match editing
    case None => Inherited(FreshId(now), false, today, Active, true)
    case Some(m) =>
      Inherited(
        if m.id != "" then m.id else FreshId(now),
        m.isDefault,
        if m.lastUsed != "" then m.lastUsed else today,
        m.status,
        m.autopayEnabled)
  }

  /** `formData.cardNumber.slice(-4)`: the last four characters of the shown number. */
  function LastFourChars(s: string): (r: string)
    ensures |r| == if |s| < 4 then |s| else 4
    ensures r == s[|s| - |r|..]
  {
    if |s| < 4 then s else s[|s| - 4..]
  }

  /** The last four digits of the shown number, spaces left out. */
  function LastFourDigits(s: string): (r: string)
    ensures r == LastFourChars(RemoveSpaces(s))
    ensures NoSpaces(r)
  {
    LastFourChars(RemoveSpaces(s))
  }

  /**
   * With a digit count that is not a multiple of four, the last four characters of the
   * shown number include the separating space, so they are not the last four digits.
   */
  lemma LastFourCharsKeepsSpace(raw: string)
    requires |CardDigits(raw)| > 4 && |CardDigits(raw)| % 4 != 0
    ensures ' ' in LastFourChars(FormatCardNumber(raw))
    ensures LastFourChars(FormatCardNumber(raw)) != LastFourDigits(FormatCardNumber(raw))
  {
    FormatCardNumberShape(raw);
    PartialLastGroup(FormatCardNumber(raw), |CardDigits(raw)|);
  }

  /** A grouping of `n` digits that ends in a partial group has a space among its last four characters. */
  lemma PartialLastGroup(r: string, n: int)
    requires GroupedByFour(r) && n > 4 && n % 4 != 0 && |r| == n + (n - 1) / 4
    ensures ' ' in LastFourChars(r)
    ensures LastFourChars(r) != LastFourDigits(r)
  {
    var q, m := n / 4, n % 4;
    PartialGroupLength(n, q, m);
    DivModFive(5 * q - 1, q - 1, 4);
    GroupedSpaceAt(r, 5 * q - 1);
    GroupedTailHasSpace(r, q, m);
  }

  /** `n` digits ending in a partial group of `m` are shown in `5 * q + m` characters. */
  lemma PartialGroupLength(n: int, q: int, m: int)
    requires n > 4 && q == n / 4 && m == n % 4 && m != 0
    ensures q >= 1 && 1 <= m <= 3 && n + (n - 1) / 4 == 5 * q + m
  {
  }

  /** Every fifth character of a grouped text is a space. */
  lemma GroupedSpaceAt(s: string, p: int)
    requires GroupedByFour(s) && 0 <= p < |s| && p % 5 == 4
    ensures s[p] == ' '
  {
  }

  /** Short of a full last group, the last four characters of a grouping reach back over a space. */
  lemma GroupedTailHasSpace(r: string, q: int, m: int)
    requires q >= 1 && 1 <= m <= 3 && |r| == 5 * q + m && r[5 * q - 1] == ' '
    ensures ' ' in LastFourChars(r)
    ensures LastFourChars(r) != LastFourDigits(r)
  {
    assert LastFourChars(r)[4 - m - 1] == r[5 * q - 1];
  }

  /** A thirteen-digit Visa number passes validation and is stored as "11 1". */
  lemma ThirteenDigitVisaShown()
    ensures FormatCardNumber("4111111111111") == "4111 1111 1111 1"
  {
    ThirteenDigits();
    FormatOfDigits("4111111111111");
    GroupThirteenDigits();
    TrimUnpadded("4111 1111 1111 1");
  }

  lemma ThirteenDigits()
    ensures AllDigits("4111111111111")
  {
  }

  /** A thirteen-digit number starting with 4 passes the number check and is detected as Visa. */
  lemma ThirteenDigitVisaAccepted(raw: string)
    requires |CardDigits(raw)| == 13 && CardDigits(raw)[0] == '4'
    ensures CardNetwork(FormatCardNumber(raw)) == "Visa" && NumberLongEnough(FormatCardNumber(raw))
  {
    FormattedCardNumberDigits(raw);
  }

  /** Stored as written, the thirteen-digit Visa number keeps "11 1", a space included. */
  lemma ThirteenDigitVisaStoredWithSpace()
    ensures LastFourChars("4111 1111 1111 1") == "11 1"
  {
    var r := "4111 1111 1111 1";
    assert r[12..] == "11 1";
  }

  /** A string of at most 19 digits is shown as its own grouping. */
  lemma FormatOfDigits(d: string)
    requires AllDigits(d) && |d| <= 19
    ensures CardDigits(d) == d && RemoveSpaces(d) == d
    ensures FormatCardNumber(d) == Trim(GroupByFour(d))
  {
    DigitsKept(d);
    assert CardDigits(d) == d;
  }

  /** Neither removing spaces nor keeping digits changes a string of at most 19 digits. */
  lemma DigitsKept(d: string)
    requires AllDigits(d) && |d| <= 19
    ensures RemoveSpaces(d) == d && KeepDigits(d) == d && Take(d, 19) == d
  {
    assert NoSpaces(d);
  }

  lemma GroupThirteenDigits()
    ensures GroupByFour("4111111111111") == "4111 1111 1111 1"
  {
    GroupNineOnes();
    var d := "4111111111111";
    assert d[..4] == "4111" && d[4..] == "111111111";
  }

  lemma GroupNineOnes()
    ensures GroupByFour("111111111") == "1111 1111 1"
  {
    GroupFiveOnes();
    var d := "111111111";
    assert d[..4] == "1111" && d[4..] == "11111";
  }

  lemma GroupFiveOnes()
    ensures GroupByFour("11111") == "1111 1"
  {
    var d := "11111";
    assert d[..4] == "1111" && d[4..] == "1";
  }

  /** For the shown number, the corrected value is the last four digits typed (at most 19 kept). */
  lemma LastFourDigitsOfFormatted(raw: string)
    ensures var d := CardDigits(raw);
      LastFourDigits(FormatCardNumber(raw)) == d[|d| - (if |d| < 4 then |d| else 4)..]
    ensures AllDigits(LastFourDigits(FormatCardNumber(raw)))
  {
    FormattedCardNumberDigits(raw);
  }

  /** When the digit count is a multiple of four (a 16-digit card) both readings agree. */
  lemma LastFourAgreeOnFullGroups(raw: string)
    requires |CardDigits(raw)| >= 4 && |CardDigits(raw)| % 4 == 0
    ensures LastFourChars(FormatCardNumber(raw)) == LastFourDigits(FormatCardNumber(raw))
  {
    FormatCardNumberShape(raw);
    GroupedTailIsDigits(FormatCardNumber(raw), CardDigits(raw));
  }

  /** After a full last group, the last four characters of a grouping are the last four digits. */
  lemma GroupedTailIsDigits(r: string, d: string)
    requires ShowsGrouped(r, d) && RemoveSpaces(r) == d
    requires |d| >= 4 && |d| % 4 == 0 && |r| == |d| + (|d| - 1) / 4
    ensures LastFourChars(r) == LastFourDigits(r)
  {
    var q := |d| / 4;
    assert |d| == 4 * q && |r| == 5 * q - 1;
    FullGroupsTail(r, d, q);
  }

  lemma FullGroupsTail(r: string, d: string, q: nat)
    requires q >= 1 && |d| == 4 * q && |r| == 5 * q - 1
    requires forall i :: 0 <= i < |r| && i % 5 != 4 ==> 0 <= i - i / 5 < |d| && r[i] == d[i - i / 5]
    ensures r[|r| - 4..] == d[|d| - 4..]
  {
    var shown, digits := r[|r| - 4..], d[|d| - 4..];
    forall k | 0 <= k < 4
      ensures shown[k] == digits[k]
    {
      DivModFive(5 * q - 5 + k, q - 1, k);
      assert shown[k] == r[5 * q - 5 + k];
    }
  }

  /** The card method built from a form that passed validation (corrected stored number). */
  function NewCardMethod(form: FormData, editing: Option<PaymentMethod>, now: nat, today: string): (r: PaymentMethod)
    ensures r.methodType == CreditCard
    ensures r.cardNetwork == Some(if CardNetwork(form.cardNumber) != "" then CardNetwork(form.cardNumber) else "Card")
    ensures r.cardNumber == LastFourDigits(form.cardNumber)
    ensures r.expiryDate == form.expiryDate && r.cardholderName == form.cardholderName
    ensures Inherited(r.id, r.isDefault, r.lastUsed, r.status, r.autopayEnabled) == Inherit(editing, now, today)
  {
    var network := CardNetwork(form.cardNumber);
    var b := Inherit(editing, now, today);
    PaymentMethod(
      b.id, CreditCard, Some(if network != "" then network else "Card"),
      LastFourDigits(form.cardNumber), form.expiryDate, form.cardholderName,
      b.isDefault, b.lastUsed, b.status, b.autopayEnabled)
  }

  /**
   * The card method as line 189 builds it: the stored number is the last four characters
   * of the shown number, group space included. Every other field is that of `NewCardMethod`.
   */
  function NewCardMethodAsWritten(form: FormData, editing: Option<PaymentMethod>, now: nat, today: string): (r: PaymentMethod)
    ensures r.cardNumber == LastFourChars(form.cardNumber)
    ensures r.(cardNumber := "") == NewCardMethod(form, editing, now, today).(cardNumber := "")
  {
    NewCardMethod(form, editing, now, today).(cardNumber := LastFourChars(form.cardNumber))
  }

  /**
   * On an accepted number whose digit count is not a multiple of four, the builder as
   * written stores a group space, the corrected one the last four digits typed.
   */
  lemma BuildersDisagree(raw: string, form: FormData, editing: Option<PaymentMethod>, now: nat, today: string)
    requires form.cardNumber == FormatCardNumber(raw) && NumberLongEnough(form.cardNumber)
    requires |CardDigits(raw)| % 4 != 0
    ensures ' ' in NewCardMethodAsWritten(form, editing, now, today).cardNumber
    ensures var d := CardDigits(raw); |d| >= 13 && NewCardMethod(form, editing, now, today).cardNumber == d[|d| - 4..]
    ensures NewCardMethodAsWritten(form, editing, now, today).cardNumber != NewCardMethod(form, editing, now, today).cardNumber
  {
    var shown := form.cardNumber;
    assert |CardDigits(raw)| >= 13 by {
      ValidatedCardStoresFourDigits(form, raw, editing, now, today);
    }
    assert ' ' in LastFourChars(shown) && LastFourChars(shown) != LastFourDigits(shown) by {
      LastFourCharsKeepsSpace(raw);
    }
    ValidatedCardStoresFourDigits(form, raw, editing, now, today);
  }

  /** Every thirteen-digit Visa number is accepted, and the builder as written stores it with a space. */
  lemma ThirteenDigitVisaBuilders(raw: string, form: FormData, editing: Option<PaymentMethod>, now: nat, today: string)
    requires |CardDigits(raw)| == 13 && CardDigits(raw)[0] == '4' && form.cardNumber == FormatCardNumber(raw)
    ensures NumberLongEnough(form.cardNumber) && CardNetwork(form.cardNumber) == "Visa"
    ensures ' ' in NewCardMethodAsWritten(form, editing, now, today).cardNumber
    ensures NewCardMethod(form, editing, now, today).cardNumber == CardDigits(raw)[9..]
  {
    ThirteenDigitVisaAccepted(raw);
    BuildersDisagree(raw, form, editing, now, today);
  }

  /** The PayPal method: the e-mail goes in the number slot, the holder is fixed. */
  function NewPayPalMethod(form: FormData, editing: Option<PaymentMethod>, now: nat, today: string): (r: PaymentMethod)
    ensures r.methodType == PayPal && r.cardNetwork.None?
    ensures r.cardNumber == form.paypalEmail && r.expiryDate == "" && r.cardholderName == "PayPal Account"
    ensures Inherited(r.id, r.isDefault, r.lastUsed, r.status, r.autopayEnabled) == Inherit(editing, now, today)
  {
    var b := Inherit(editing, now, today);
    PaymentMethod(
      b.id, PayPal, None, form.paypalEmail, "", "PayPal Account",
      b.isDefault, b.lastUsed, b.status, b.autopayEnabled)
  }

  /**
   * Editing keeps the edited method's default flag, status and autopay setting; a new method
   * is not default, is active and has autopay on, with a fresh `pm_` id.
   */
  lemma EditModeInheritance(form: FormData, editing: Option<PaymentMethod>, now: nat, today: string)
    ensures var c, p := NewCardMethod(form, editing, now, today), NewPayPalMethod(form, editing, now, today);
      (editing.Some? ==>
        c.isDefault == p.isDefault == editing.value.isDefault &&
        c.status == p.status == editing.value.status &&
        c.autopayEnabled == p.autopayEnabled == editing.value.autopayEnabled &&
        (editing.value.id != "" ==> c.id == p.id == editing.value.id)) &&
      (editing.None? ==>
        !c.isDefault && !p.isDefault && c.status == p.status == Active &&
        c.autopayEnabled && p.autopayEnabled &&
        c.id == p.id && c.id[..3] == "pm_" && ParseNat(c.id[3..]) == now)
  {
  }

  /** The stored number of a validated card is its last four digits, never with a space. */
  lemma ValidatedCardStoresFourDigits(form: FormData, raw: string, editing: Option<PaymentMethod>, now: nat, today: string)
    requires form.cardNumber == FormatCardNumber(raw) && NumberLongEnough(form.cardNumber)
    ensures |CardDigits(raw)| >= 13
    ensures var m := NewCardMethod(form, editing, now, today);
      var d := CardDigits(raw);
      |m.cardNumber| == 4 && AllDigits(m.cardNumber) && m.cardNumber == d[|d| - 4..]
  {
    StoredDigits(raw);
  }

  /** A shown number that passes the length check keeps at least 13 digits, and its last four digits are those typed. */
  lemma StoredDigits(raw: string)
    requires NumberLongEnough(FormatCardNumber(raw))
    ensures var d, last := CardDigits(raw), LastFourDigits(FormatCardNumber(raw));
      |d| >= 13 && |last| == 4 && AllDigits(last) && last == d[|d| - 4..]
  {
    var d := CardDigits(raw);
    assert |d| >= 13 by {
      FormattedCardNumberDigits(raw);
    }
    LastFourDigitsOfFormatted(raw);
  }
}
