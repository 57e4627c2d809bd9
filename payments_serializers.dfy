/** The payment and refund request serializers: the checks a payment must pass before it is
    started (the sale is not paid, the amount fits the balance, mobile money has a phone
    number), the checks a refund request must pass (the payment succeeded, something is left to
    refund, the amount fits), and the creation of the rows with their generated references. */
module PaymentsSerializers {
  import opened Common
  import opened Js
  import opened Python
  import opened Stamps
  import SalesModels
  import opened PaymentsModels

  /** The members of an initiation request as the parser hands them to the serializer; None
      stands for a key that is absent. */
  datatype InitiateRequest = InitiateRequest(
    sale: Option<Scalar>,
    paymentMethod: Option<Scalar>,
    amount: Option<Scalar>,
    phoneNumber: Option<Scalar>,
    accountNumber: Option<Scalar>)

  /** What one field makes of its raw value: the value, or the message it refuses the value
      with. */
  datatype Field<T> = Parsed(value: T) | Rejected(message: string)

  const Required: string := "This field is required."
  const NotNull: string := "This field may not be null."

  /** `Model.objects.get(pk=id)` over a table: the first row whose key is id, if there is
      one. */
  function FindByKey<T>(rows: seq<T>, key: T -> int, id: int): (r: Option<T>)
    ensures r.Some? ==> r.value in rows && key(r.value) == id
    ensures r.None? ==> forall k :: 0 <= k < |rows| ==> key(rows[k]) != id
  {
    if rows == [] then None
    else if key(rows[0]) == id then Some(rows[0])
    else FindByKey(rows[1..], key, id)
  }

  /** The primary keys of the two tables the serializers relate to. */
  function SaleId(s: SalesModels.Sale): int {
    s.id
  }

  function PaymentId(p: Payment): int {
    p.id
  }

  /** What a primary key related field makes of its raw value before the lookup: required;
      null, and the empty text (which every related field reads as null), are refused as
      null; a boolean is of the wrong type; an integer is the key; a text is the key `int()`
      reads from it, and of the wrong type when there is none. */
  function PkKey(v: Option<Scalar>): (r: Field<int>)
    ensures v.None? ==> r == Rejected(Required)
    ensures v == Some(PyNone) || v == Some(PyStr("")) ==> r == Rejected(NotNull)
    ensures r.Parsed? <==> v.Some? && (v.value.PyInt? || (v.value.PyStr? && v.value.s != "" && ParseInt(v.value.s).Some?))
    ensures r.Parsed? ==> v.value == PyInt(r.value) || (v.value.PyStr? && ParseInt(v.value.s) == Some(r.value))
  {
    match v
    case None => Rejected(Required)
    case Some(PyNone) => Rejected(NotNull)
    case Some(PyBool(_)) => Rejected("Incorrect type. Expected pk value, received bool.")
    case Some(PyInt(i)) => Parsed(i)
    case Some(PyStr(t)) =>
      if t == "" then Rejected(NotNull)
      else if ParseInt(t).None? then Rejected("Incorrect type. Expected pk value, received str.")
      else Parsed(ParseInt(t).value)
  }

  /** The refusal of a key that names no row; the key is quoted as it was sent. */
  function MissingPk(v: Scalar): (m: string)
    requires !v.PyNone?
    ensures v.PyInt? ==> m == "Invalid pk \"" + IntToDecimal(v.i) + "\" - object does not exist."
    ensures v.PyStr? ==> m == "Invalid pk \"" + v.s + "\" - object does not exist."
  {
    "Invalid pk \"" + ColumnText(v).value + "\" - object does not exist."
  }

  /** The `sale` field, a primary key related to the sales: the key read by `PkKey` must name
      an existing sale. */
  function SaleField(sales: seq<SalesModels.Sale>, v: Option<Scalar>): (r: Field<SalesModels.Sale>)
    ensures v.None? ==> r == Rejected(Required)
    ensures v == Some(PyNone) || v == Some(PyStr("")) ==> r == Rejected(NotNull)
    ensures r.Parsed? ==>
      r.value in sales && v.Some?
      && (v.value == PyInt(r.value.id) || (v.value.PyStr? && ParseInt(v.value.s) == Some(r.value.id)))
    ensures forall s :: s in sales && v == Some(PyInt(s.id)) && FindByKey(sales, SaleId, s.id) == Some(s) ==> r == Parsed(s)
    ensures PkKey(v).Parsed? && FindByKey(sales, SaleId, PkKey(v).value).None? ==> r == Rejected(MissingPk(v.value))
  {
    match PkKey(v)
    case Rejected(m) => Rejected(m)
    case Parsed(i) =>
      match FindByKey(sales, SaleId, i)
      case Some(s) => Parsed(s)
      case None => Rejected(MissingPk(v.value))
  }

  /** The `method` field, a choice among the method names: required and not null; the value's
      `str()` must be one of the names. */
  function MethodField(v: Option<Scalar>): (r: Field<Method>)
    ensures v.None? ==> r == Rejected(Required)
    ensures v == Some(PyNone) ==> r == Rejected(NotNull)
    ensures r.Parsed? <==> v.Some? && !v.value.PyNone? && ParseMethod(ColumnText(v.value).value).Some?
    ensures r.Parsed? ==> MethodName(r.value) == ColumnText(v.value).value
    ensures forall m :: v == Some(PyStr(MethodName(m))) ==> r == Parsed(m)
  {
    match v
    case None => Rejected(Required)
    case Some(PyNone) => Rejected(NotNull)
    case Some(x) =>
      var text := ColumnText(x).value;
      match ParseMethod(text)
      case Some(m) => Parsed(m)
      case None => Rejected("\"" + text + "\" is not a valid choice.")
  }

  /** An optional text field that allows blanks (`phone_number`, `account_number`): absent
      when not sent, null refused, a boolean is not a string; anything else is its `str()`
      with surrounding white space removed. */
  function OptionalText(v: Option<Scalar>): (r: Field<Option<string>>)
    ensures v.None? <==> r == Parsed(None)
    ensures v == Some(PyNone) ==> r == Rejected(NotNull)
    ensures r.Parsed? && r.value.Some? ==> v.Some? && !v.value.PyBool? && r.value.value == Strip(ColumnText(v.value).value)
    ensures forall t :: v == Some(PyStr(t)) ==> r == Parsed(Some(Strip(t)))
  {
    match v
    case None => Parsed(None)
    case Some(PyNone) => Rejected(NotNull)
    case Some(PyBool(_)) => Rejected("Not a valid string.")
    case Some(x) => Parsed(Some(Strip(ColumnText(x).value)))
  }

  /** A decimal numeral: its sign, and the digits before and after the point. */
  datatype Numeral = Numeral(negative: bool, whole: string, fraction: string)

  /** The index of the first '.', or the length when there is none. */
  function PointAt(s: string): (i: nat)
    ensures i <= |s| && (i < |s| ==> s[i] == '.')
    ensures forall k :: 0 <= k < i ==> s[k] != '.'
  {
    if s == [] || s[0] == '.' then 0 else 1 + PointAt(s[1..])
  }

  /** What `Decimal()` reads as a plain numeral: an optional sign, digits with at most one
      point, and at least one digit ("1.50", "+3", ".5", "7."); None for any other text. */
  function ParseNumeral(t: string): (r: Option<Numeral>)
    ensures r.Some? ==>
      AllDigits(r.value.whole) && AllDigits(r.value.fraction) && |r.value.whole| + |r.value.fraction| >= 1
  {
    var signed := t != [] && (t[0] == '-' || t[0] == '+');
    var body := if signed then t[1..] else t;
    var i := PointAt(body);
    var whole := body[..i];
    var fraction := if i < |body| then body[i + 1..] else "";
    if AllDigits(whole) && AllDigits(fraction) && |whole| + |fraction| >= 1 then
      Some(Numeral(signed && t[0] == '-', whole, fraction))
    else None
  }

  /** `validate_precision` for `max_digits=10, decimal_places=2`, given the digit count of the
      numeral's coefficient (leading zeros dropped) and its places after the point: the first
      limit broken, in the order the field checks them, or None. Within the limits the cents
      value has at most ten digits. */
  function PrecisionError(digits: nat, places: nat): (r: Option<string>)
    ensures r.None? ==> places <= 2 && digits + 2 - places <= 10
    ensures places > 2 ==> r.Some?
  {
    var total := if places == 0 || digits > places then digits else places;
    var wholeDigits := if places == 0 then digits else if digits > places then digits - places else 0;
    if total > 10 then Some("Ensure that there are no more than 10 digits in total.")
    else if places > 2 then Some("Ensure that there are no more than 2 decimal places.")
    else if wholeDigits > 8 then Some("Ensure that there are no more than 8 digits before the decimal point.")
    else None
  }

  /** A numeral checked against the field's precision, then its value in cents. */
  function AmountOfNumeral(n: Numeral): (r: Field<int>)
    requires AllDigits(n.whole) && AllDigits(n.fraction)
  {
    var coefficient := DecimalValue(n.whole + n.fraction);
    var places := |n.fraction|;
    match PrecisionError(|NatToDecimal(coefficient)|, places)
    case Some(message) => Rejected(message)
    case None =>
      var cents := coefficient * Pow10(2 - places);
      Parsed(if n.negative then -cents else cents)
  }

  /** The `amount` field, a decimal with at most ten digits, two of them after the point:
      required and not null; the value's `str()`, stripped, must be at most 1000 characters
      and a numeral within those limits. An accepted amount is below 10^10 cents either way. */
  function AmountField(v: Option<Scalar>): (r: Field<int>)
    ensures v.None? ==> r == Rejected(Required)
    ensures v == Some(PyNone) ==> r == Rejected(NotNull)
    ensures r.Parsed? ==> -10000000000 < r.value < 10000000000
  {
    match v
    case None => Rejected(Required)
    case Some(PyNone) => Rejected(NotNull)
    case Some(x) =>
      var text := Strip(ColumnText(x).value);
      if |text| > 1000 then Rejected("String value too large.")
      else
        match ParseNumeral(text)
        case None => Rejected("A valid number is required.")
        case Some(n) =>
          AmountBound(n);
          AmountOfNumeral(n)
  }

  /** An amount within the limits is below 10^10 cents. */
  lemma AmountBound(n: Numeral)
    requires AllDigits(n.whole) && AllDigits(n.fraction)
    ensures AmountOfNumeral(n).Parsed? ==> -10000000000 < AmountOfNumeral(n).value < 10000000000
  {
    var coefficient := DecimalValue(n.whole + n.fraction);
    var digits := |NatToDecimal(coefficient)|;
    var places := |n.fraction|;
    if PrecisionError(digits, places).None? {
      CentsBound(coefficient, places);
    }
  }

  /** A coefficient within the precision limits, scaled to cents, is below 10^10. */
  lemma CentsBound(coefficient: nat, places: nat)
    requires PrecisionError(|NatToDecimal(coefficient)|, places).None?
    ensures places <= 2 && coefficient * Pow10(2 - places) < 10000000000
  {
    var digits := |NatToDecimal(coefficient)|;
    BelowPow10(coefficient);
    MulBelow(coefficient, Pow10(digits), Pow10(2 - places));
    Pow10Add(digits, 2 - places);
    Pow10Monotone(digits + (2 - places), 10);
    Pow10Ten();
  }

  lemma Pow10Ten()
    ensures Pow10(10) == 10000000000
  {
  }

  lemma MulBelow(a: nat, b: nat, c: nat)
    requires a < b && c >= 1
    ensures a * c < b * c
  {
  }

  /** A number is below ten to the power of its digit count. */
  lemma {:induction false} BelowPow10(m: nat)
    ensures m < Pow10(|NatToDecimal(m)|)
  {
    if m >= 10 {
      BelowPow10(m / 10);
    }
  }

  /** A number below ten to the power k has at most k digits. */
  lemma {:induction false} DigitsWithin(m: nat, k: nat)
    requires 1 <= k && m < Pow10(k)
    ensures |NatToDecimal(m)| <= k
  {
    if m >= 10 {
      DigitsWithin(m / 10, k - 1);
    }
  }

  lemma {:induction false} Pow10Monotone(a: nat, b: nat)
    requires a <= b
    ensures Pow10(a) <= Pow10(b)
  {
    if a < b {
      Pow10Monotone(a, b - 1);
    }
  }

  lemma {:induction false} Pow10Add(a: nat, b: nat)
    ensures Pow10(a) * Pow10(b) == Pow10(a + b)
  {
    if b > 0 {
      Pow10Add(a, b - 1);
    }
  }

  /** The two-place text of an amount that fits the field is read back as that amount. */
  lemma AmountFieldReadsCentsText(cents: int)
    requires -10000000000 < cents < 10000000000
    ensures AmountField(Some(PyStr(CentsText(cents)))) == Parsed(cents)
  {
    var m: nat := if cents < 0 then -cents else cents;
    CentsTextNumeral(cents);
    CentsNumeralValue(cents < 0, m);
  }

  /** The digits of a cents amount and its two places after the point. */
  function CentsNumeral(negative: bool, m: nat): Numeral {
    Numeral(negative, NatToDecimal(m / 100), [DigitChar(m % 100 / 10), DigitChar(m % 10)])
  }

  /** The two-place text of an amount is short and reads as a numeral with those digits. */
  lemma CentsTextNumeral(cents: int)
    requires -10000000000 < cents < 10000000000
    ensures var t := Strip(CentsText(cents));
      |t| <= 1000 &&
      ParseNumeral(t) == Some(CentsNumeral(cents < 0, if cents < 0 then -cents else cents))
  {
    var m: nat := if cents < 0 then -cents else cents;
    var n := CentsNumeral(cents < 0, m);
    var t := CentsText(cents);
    assert m / 100 < Pow10(8) by {
      Pow10Eight();
    }
    DigitsWithin(m / 100, 8);
    TwoDigitValue(m % 100 / 10, m % 10);
    assert t == (if cents < 0 then "-" else "") + n.whole + "." + n.fraction;
    NumeralText(cents < 0, n.whole, n.fraction);
  }

  /** A signed text of digits, a point and digits, with no space at either end, reads as
      those parts. */
  lemma NumeralText(negative: bool, whole: string, fraction: string)
    requires |whole| >= 1 && AllDigits(whole) && |fraction| >= 1 && AllDigits(fraction)
    ensures var t := (if negative then "-" else "") + whole + "." + fraction;
      Strip(t) == t && ParseNumeral(t) == Some(Numeral(negative, whole, fraction))
  {
    var body := whole + "." + fraction;
    UnsignedNumeral(whole, fraction);
    NoSpaceInDigits(whole);
    NoSpaceInDigits(fraction);
    assert body[0] == whole[0] && body[|body| - 1] == fraction[|fraction| - 1];
    if negative {
      assert "-" + whole + "." + fraction == "-" + body;
      NegativeNumeralText(body, whole, fraction);
    } else {
      assert "" + whole + "." + fraction == body;
      StripNoop(body);
      PositiveNumeralText(body, whole, fraction);
    }
  }

  lemma PositiveNumeralText(body: string, whole: string, fraction: string)
    requires body == whole + "." + fraction && '0' <= body[0] <= '9'
    requires PointAt(body) == |whole| && body[..|whole|] == whole && body[|whole| + 1..] == fraction
    requires AllDigits(whole) && AllDigits(fraction) && |whole| >= 1
    ensures ParseNumeral(body) == Some(Numeral(false, whole, fraction))
  {
  }

  lemma NegativeNumeralText(body: string, whole: string, fraction: string)
    requires body == whole + "." + fraction && body != []
    requires !IsPySpace(body[|body| - 1]) && '0' <= body[0] <= '9'
    requires PointAt(body) == |whole| && body[..|whole|] == whole && body[|whole| + 1..] == fraction
    requires AllDigits(whole) && AllDigits(fraction) && |whole| >= 1
    ensures Strip("-" + body) == "-" + body
    ensures ParseNumeral("-" + body) == Some(Numeral(true, whole, fraction))
  {
    var t := "-" + body;
    assert t[|t| - 1] == body[|body| - 1];
    StripNoop(t);
    PositiveNumeralText(body, whole, fraction);
    NegatedNumeral(body);
  }

  /** A minus sign before an unsigned numeral only makes it negative. */
  lemma NegatedNumeral(body: string)
    requires body != [] && '0' <= body[0] <= '9'
    ensures ParseNumeral(body).Some? ==> ParseNumeral("-" + body) == Some(ParseNumeral(body).value.(negative := true))
  {
    var t := "-" + body;
    assert t[1..] == body;
  }

  lemma UnsignedNumeral(whole: string, fraction: string)
    requires AllDigits(whole) && AllDigits(fraction)
    ensures var body := whole + "." + fraction;
      PointAt(body) == |whole| && body[..|whole|] == whole && body[|whole| + 1..] == fraction
  {
    var body := whole + "." + fraction;
    assert body == whole + ("." + fraction);
    PointAfterDigits(whole, "." + fraction);
    assert body[..|whole|] == whole && body[|whole| + 1..] == fraction;
  }

  lemma {:induction false} PointAfterDigits(whole: string, rest: string)
    requires AllDigits(whole) && rest != [] && rest[0] == '.'
    ensures PointAt(whole + rest) == |whole|
  {
    if whole != [] {
      assert (whole + rest)[1..] == whole[1..] + rest;
      PointAfterDigits(whole[1..], rest);
    }
  }

  /** A cents amount below 10^10, written with two places, passes the precision check and is
      read as itself. */
  lemma CentsNumeralValue(negative: bool, m: nat)
    requires m < 10000000000
    ensures var n := CentsNumeral(negative, m);
      AllDigits(n.whole) && AllDigits(n.fraction) &&
      AmountOfNumeral(n) == Parsed(if negative then 0 - m else m)
  {
    var n := CentsNumeral(negative, m);
    CentsNumeralDigits(m);
    Pow10Ten();
    DigitsWithin(m, 10);
    PrecisionOfTwoPlaces(|NatToDecimal(m)|);
    assert Pow10(0) == 1;
  }

  lemma PrecisionOfTwoPlaces(digits: nat)
    requires digits <= 10
    ensures PrecisionError(digits, 2).None?
  {
  }

  /** The digits of a cents amount's two-place numeral spell the amount. */
  lemma CentsNumeralDigits(m: nat)
    ensures var n := CentsNumeral(false, m);
      AllDigits(n.whole) && AllDigits(n.fraction) && |n.fraction| == 2 &&
      DecimalValue(n.whole + n.fraction) == m
  {
    TwoPlaceDigits(m / 100, m % 100 / 10, m % 10);
    HundredsTensUnits(m);
  }

  lemma TwoPlaceDigits(q: nat, a: nat, b: nat)
    requires a < 10 && b < 10
    ensures AllDigits(NatToDecimal(q) + [DigitChar(a), DigitChar(b)])
    ensures DecimalValue(NatToDecimal(q) + [DigitChar(a), DigitChar(b)]) == 100 * q + 10 * a + b
  {
    TwoDigitValue(a, b);
    DecimalAppendTwo(NatToDecimal(q), a, b);
    DecimalOfNatToDecimal(q);
  }

  lemma HundredsTensUnits(m: nat)
    ensures 100 * (m / 100) + 10 * (m % 100 / 10) + m % 10 == m
  {
    var q, r := m / 100, m % 100;
    var a, b := r / 10, r % 10;
    assert m == 100 * q + r;
    assert r == 10 * a + b;
    assert m == 10 * (10 * q + a) + b;
    LastDigit(10 * q + a, b);
  }

  lemma LastDigit(x: nat, b: nat)
    requires b < 10
    ensures (10 * x + b) % 10 == b
  {
  }

  lemma Pow10Eight()
    ensures Pow10(8) == 100000000
  {
  }

  /** Two more digits multiply the value by a hundred and add theirs. */
  lemma DecimalAppendTwo(s: string, a: nat, b: nat)
    requires AllDigits(s) && a < 10 && b < 10
    ensures AllDigits(s + [DigitChar(a), DigitChar(b)])
    ensures DecimalValue(s + [DigitChar(a), DigitChar(b)]) == 100 * DecimalValue(s) + 10 * a + b
  {
    var u := s + [DigitChar(a)];
    var w := s + [DigitChar(a), DigitChar(b)];
    assert w[..|w| - 1] == u && u[..|u| - 1] == s;
  }

  /** The request after its fields: the method, the amount in cents, and the two optional
      texts, trimmed (None when not sent). */
  datatype InitiateInput = InitiateInput(paymentMethod: Method, amount: int, phoneNumber: Option<string>,
                                         accountNumber: Option<string>)

  /** The errors of the fields that refused their values, in the declared field order. */
  function InitiateFieldErrors(sales: seq<SalesModels.Sale>, req: InitiateRequest): (e: seq<(string, string)>)
    ensures e == [] <==>
      (SaleField(sales, req.sale).Parsed? && MethodField(req.paymentMethod).Parsed?
       && AmountField(req.amount).Parsed? && OptionalText(req.phoneNumber).Parsed?
       && OptionalText(req.accountNumber).Parsed?)
    ensures SaleField(sales, req.sale).Rejected? ==> e != [] && e[0] == ("sale", SaleField(sales, req.sale).message)
    ensures forall k :: 0 <= k < |e| ==> e[k].0 in {"sale", "method", "amount", "phone_number", "account_number"}
    ensures SaleField(sales, req.sale).Parsed? ==> forall k :: 0 <= k < |e| ==> e[k].0 != "sale"
  {
    ErrorsInOrder(SaleField(sales, req.sale), MethodField(req.paymentMethod), AmountField(req.amount),
      OptionalText(req.phoneNumber), OptionalText(req.accountNumber))
  }

  /** The errors of the five fields, in declared order, each under its field's name. */
  function ErrorsInOrder(sale: Field<SalesModels.Sale>, paymentMethod: Field<Method>, amount: Field<int>,
    phone: Field<Option<string>>, account: Field<Option<string>>): (e: seq<(string, string)>)
    ensures e == [] <==> sale.Parsed? && paymentMethod.Parsed? && amount.Parsed? && phone.Parsed? && account.Parsed?
    ensures sale.Rejected? ==> e != [] && e[0] == ("sale", sale.message)
    ensures forall k :: 0 <= k < |e| ==> e[k].0 in {"sale", "method", "amount", "phone_number", "account_number"}
    ensures sale.Parsed? ==> forall k :: 0 <= k < |e| ==> e[k].0 != "sale"
  {
    var first := ErrorOf("sale", sale);
    var rest := ErrorOf("method", paymentMethod) + ErrorOf("amount", amount)
      + ErrorOf("phone_number", phone) + ErrorOf("account_number", account);
    assert forall k :: 0 <= k < |rest| ==> rest[k].0 in {"method", "amount", "phone_number", "account_number"};
    first + rest
  }

  /** The error a field reports under its name: none when it parsed its value. */
  function ErrorOf<T>(name: string, f: Field<T>): (e: seq<(string, string)>)
    ensures e == [] <==> f.Parsed?
    ensures f.Rejected? ==> e == [(name, f.message)]
    ensures forall k :: 0 <= k < |e| ==> e[k].0 == name
  {
    if f.Rejected? then [(name, f.message)] else []
  }

  /** `PaymentInitiateSerializer.validate`: the first failing check decides the message. The
      phone number arrives trimmed by its field. */
  function ValidateInitiate(sale: SalesModels.Sale, input: InitiateInput): (r: Result<InitiateInput>)
    reads sale
    ensures r.Ok? <==> (sale.paymentStatus != SalesModels.Paid && input.amount <= sale.total - sale.amountPaid
      && !(IsMobile(input.paymentMethod) && (input.phoneNumber.None? || input.phoneNumber.value == "")))
    ensures sale.paymentStatus == SalesModels.Paid ==> r == Err("Sale is already fully paid")
    ensures sale.paymentStatus != SalesModels.Paid && input.amount > sale.total - sale.amountPaid ==>
      r == Err("Amount exceeds remaining balance: " + CentsText(sale.total - sale.amountPaid))
    ensures (sale.paymentStatus != SalesModels.Paid && input.amount <= sale.total - sale.amountPaid
             && IsMobile(input.paymentMethod) && (input.phoneNumber.None? || input.phoneNumber.value == ""))
      ==> r == Err("Phone number is required for mobile payments")
    ensures r.Ok? ==> r.value == input && sale.amountPaid + input.amount <= sale.total
  {
    if sale.paymentStatus == SalesModels.Paid then Err("Sale is already fully paid")
    else if input.amount > sale.total - sale.amountPaid then
      Err("Amount exceeds remaining balance: " + CentsText(sale.total - sale.amountPaid))
    else if IsMobile(input.paymentMethod) && (input.phoneNumber.None? || input.phoneNumber.value == "") then
      Err("Phone number is required for mobile payments")
    else Ok(input)
  }

  predicate IsMobile(m: Method) {
    m == Mpesa || m == Airtel
  }

  /** The outcome of the initiation serializer: the sale and the validated input, or the
      refusal. */
  datatype InitiateCheck = Valid(sale: SalesModels.Sale, input: InitiateInput) | Invalid(refusal: Validation)

  /** `is_valid()` on an initiation request: every field is checked and every failing field
      reported; only when all pass does `validate` run, and its refusal is a non-field error. */
  function ValidateInitiateRequest(sales: seq<SalesModels.Sale>, req: InitiateRequest): (r: InitiateCheck)
    reads sales
    ensures InitiateFieldErrors(sales, req) != [] <==> r == Invalid(FieldErrors(InitiateFieldErrors(sales, req)))
    ensures r.Invalid? ==> r.refusal.FieldErrors? || r.refusal.NonFieldError?
    ensures req.sale.None? ==> r.Invalid? && r.refusal.FieldErrors? && r.refusal.errors[0] == ("sale", Required)
    ensures r.Valid? ==>
      SaleField(sales, req.sale) == Parsed(r.sale) && MethodField(req.paymentMethod) == Parsed(r.input.paymentMethod)
      && AmountField(req.amount) == Parsed(r.input.amount)
      && OptionalText(req.phoneNumber) == Parsed(r.input.phoneNumber)
      && OptionalText(req.accountNumber) == Parsed(r.input.accountNumber)
      && ValidateInitiate(r.sale, r.input) == Ok(r.input)
    ensures r.Invalid? && r.refusal.NonFieldError? ==>
      InitiateFieldErrors(sales, req) == [] && ValidateInitiate(SaleField(sales, req.sale).value, InputOf(req)).Err?
      && r.refusal.message == ValidateInitiate(SaleField(sales, req.sale).value, InputOf(req)).error
  {
    var errors := InitiateFieldErrors(sales, req);
    if errors != [] then Invalid(FieldErrors(errors))
    else
      var sale := SaleField(sales, req.sale).value;
      var input := InputOf(req);
      match ValidateInitiate(sale, input)
      case Ok(v) => Valid(sale, v)
      case Err(message) => Invalid(NonFieldError(message))
  }

  /** The validated input of a request whose fields are all clean. */
  function InputOf(req: InitiateRequest): InitiateInput
    requires MethodField(req.paymentMethod).Parsed? && AmountField(req.amount).Parsed?
    requires OptionalText(req.phoneNumber).Parsed? && OptionalText(req.accountNumber).Parsed?
  {
    InitiateInput(MethodField(req.paymentMethod).value, AmountField(req.amount).value,
                  OptionalText(req.phoneNumber).value, OptionalText(req.accountNumber).value)
  }

  /** Paying exactly the remaining balance in cash is accepted. */
  lemma ExactBalanceAccepted(sale: SalesModels.Sale)
    requires sale.paymentStatus != SalesModels.Paid
    ensures ValidateInitiate(sale, InitiateInput(Cash, sale.total - sale.amountPaid, None, None)).Ok?
  {
  }

  /** A phone number of only spaces is trimmed to nothing by its field, and mobile money is
      then refused. */
  lemma BlankPhoneRefused(sale: SalesModels.Sale, amount: int)
    requires sale.paymentStatus != SalesModels.Paid && amount <= sale.total - sale.amountPaid
    ensures OptionalText(Some(PyStr("   "))) == Parsed(Some(""))
    ensures ValidateInitiate(sale, InitiateInput(Mpesa, amount, Some(""), None)) ==
      Err("Phone number is required for mobile payments")
  {
    assert StripStart("   ") == "";
  }

  /** `PaymentInitiateSerializer.create`: a pending payment for the validated request, with the
      reference "PAY-<stamp>-<six upper-case hex digits>", the requester as initiator and the
      creation time; a text not given is stored empty. */
  method CreatePayment(id: nat, sale: SalesModels.Sale, input: InitiateInput, clock: DateTime, uuidHex: string,
                       user: nat, now: int) returns (p: Payment)
    requires ValidDateTime(clock) && UuidHex(uuidHex)
    ensures fresh(p)
    ensures p.sale == sale && p.paymentMethod == input.paymentMethod && p.amount == input.amount
    ensures p.transactionReference == TimedReference("PAY", clock, uuidHex) && p.initiatedBy == user && p.initiatedAt == now
    ensures p.phoneNumber == (if input.phoneNumber.Some? then input.phoneNumber.value else "")
    ensures p.accountNumber == (if input.accountNumber.Some? then input.accountNumber.value else "")
    ensures p.status == Pending && p.externalReference == "" && p.errorMessage == ""
    ensures p.completedAt == None && p.metadata == map[]
  {
    var phone := if input.phoneNumber.Some? then input.phoneNumber.value else "";
    var account := if input.accountNumber.Some? then input.accountNumber.value else "";
    p := new Payment(id, sale, input.paymentMethod, input.amount, TimedReference("PAY", clock, uuidHex), phone, account,
                     user, now);
  }

  /** The outcome of a request serializer: accepted, errors keyed by field (each field is
      checked and every failing field reported), or the error of the whole-object check, which
      runs only when every field passed. */
  datatype Validation = Accepted | FieldErrors(errors: seq<(string, string)>) | NonFieldError(message: string)

  /** `validate_payment`: only a successful payment with something left to refund. */
  function PaymentFieldErrors(payment: Payment, refunds: seq<Refund>): (e: seq<(string, string)>)
    reads payment, refunds
    ensures e == [] <==> payment.status == Success && CompletedRefunds(refunds, payment) < payment.amount
  {
    if payment.status != Success then [("payment", "Can only refund successful payments")]
    else if CompletedRefunds(refunds, payment) >= payment.amount then [("payment", "Payment has already been fully refunded")]
    else []
  }

  /** The reason field: required and, once trimmed, not blank. */
  function ReasonFieldErrors(reason: string): (e: seq<(string, string)>)
    ensures e == [] <==> Strip(reason) != ""
  {
    if Strip(reason) == "" then [("reason", "This field may not be blank.")] else []
  }

  /** The members of a refund request as the parser hands them to the serializer; None
      stands for a key that is absent. */
  datatype RefundRequest = RefundRequest(payment: Option<Scalar>, amount: Option<Scalar>, reason: Option<Scalar>)

  /** The refund request's `payment` field: a primary key related to the payments, whose
      payment `validate_payment` then checks. */
  function RefundPaymentField(payments: seq<Payment>, refunds: seq<Refund>, v: Option<Scalar>): (r: Field<Payment>)
    reads payments, refunds
    ensures v.None? ==> r == Rejected(Required)
    ensures v == Some(PyNone) || v == Some(PyStr("")) ==> r == Rejected(NotNull)
    ensures PkKey(v).Parsed? && FindByKey(payments, PaymentId, PkKey(v).value).None? ==> r == Rejected(MissingPk(v.value))
    ensures r.Parsed? <==>
      PkKey(v).Parsed? && FindByKey(payments, PaymentId, PkKey(v).value).Some?
      && PaymentFieldErrors(FindByKey(payments, PaymentId, PkKey(v).value).value, refunds) == []
    ensures r.Parsed? ==>
      r.value in payments && r.value.id == PkKey(v).value
      && r.value.status == Success && CompletedRefunds(refunds, r.value) < r.value.amount
  {
    match PkKey(v)
    case Rejected(m) => Rejected(m)
    case Parsed(i) =>
      match FindByKey(payments, PaymentId, i)
      case None => Rejected(MissingPk(v.value))
      case Some(p) =>
        var e := PaymentFieldErrors(p, refunds);
        if e != [] then Rejected(e[0].1) else Parsed(p)
  }

  /** The refund's `reason`, a required text field: null refused; a text blank once trimmed
      refused as blank; a boolean is not a string; anything else is its `str()` trimmed. */
  function ReasonField(v: Option<Scalar>): (r: Field<string>)
    ensures v.None? ==> r == Rejected(Required)
    ensures v == Some(PyNone) ==> r == Rejected(NotNull)
    ensures r.Parsed? ==>
      v.Some? && !v.value.PyNone? && !v.value.PyBool? && r.value == Strip(ColumnText(v.value).value) && r.value != ""
    ensures forall t :: v == Some(PyStr(t)) ==>
      r == if Strip(t) == "" then Rejected("This field may not be blank.") else Parsed(Strip(t))
  {
    match v
    case None => Rejected(Required)
    case Some(PyNone) => Rejected(NotNull)
    case Some(x) =>
      var text := Strip(ColumnText(x).value);
      if text == "" then Rejected("This field may not be blank.")
      else if x.PyBool? then Rejected("Not a valid string.")
      else Parsed(text)
  }

  /** The errors of the three fields of a refund request, in declared order. */
  function RefundFieldErrors(payments: seq<Payment>, refunds: seq<Refund>, req: RefundRequest): (e: seq<(string, string)>)
    reads payments, refunds
    ensures e == [] <==>
      RefundPaymentField(payments, refunds, req.payment).Parsed? && AmountField(req.amount).Parsed?
      && ReasonField(req.reason).Parsed?
    ensures RefundPaymentField(payments, refunds, req.payment).Rejected? ==>
      e != [] && e[0] == ("payment", RefundPaymentField(payments, refunds, req.payment).message)
    ensures forall k :: 0 <= k < |e| ==> e[k].0 in {"payment", "amount", "reason"}
  {
    RefundErrorsInOrder(RefundPaymentField(payments, refunds, req.payment), AmountField(req.amount), ReasonField(req.reason))
  }

  /** The errors of the three refund fields, in declared order, each under its field's name. */
  function RefundErrorsInOrder(payment: Field<Payment>, amount: Field<int>, reason: Field<string>): (e: seq<(string, string)>)
    ensures e == [] <==> payment.Parsed? && amount.Parsed? && reason.Parsed?
    ensures payment.Rejected? ==> e != [] && e[0] == ("payment", payment.message)
    ensures forall k :: 0 <= k < |e| ==> e[k].0 in {"payment", "amount", "reason"}
  {
    var first := ErrorOf("payment", payment);
    var rest := ErrorOf("amount", amount) + ErrorOf("reason", reason);
    assert forall k :: 0 <= k < |rest| ==> rest[k].0 in {"amount", "reason"};
    first + rest
  }

  /** `is_valid()` on a refund request: every field is checked and every failing field
      reported; only when all pass does `validate` compare the amount with what is left. */
  function ValidateRefundRequest(payments: seq<Payment>, refunds: seq<Refund>, req: RefundRequest): (r: Validation)
    reads payments, refunds
    ensures RefundFieldErrors(payments, refunds, req) != [] <==> r == FieldErrors(RefundFieldErrors(payments, refunds, req))
    ensures req.payment.None? ==> r.FieldErrors? && r.errors[0] == ("payment", Required)
    ensures RefundFieldErrors(payments, refunds, req) == [] ==>
      r == ValidateRefund(RefundPaymentField(payments, refunds, req.payment).value, refunds,
                          AmountField(req.amount).value, ReasonField(req.reason).value)
    ensures r == Accepted ==>
      var p := RefundPaymentField(payments, refunds, req.payment).value;
      p in payments && p.status == Success && CompletedRefunds(refunds, p) + AmountField(req.amount).value <= p.amount
  {
    var errors := RefundFieldErrors(payments, refunds, req);
    if errors != [] then FieldErrors(errors)
    else
      ValidateRefund(RefundPaymentField(payments, refunds, req.payment).value, refunds,
                     AmountField(req.amount).value, ReasonField(req.reason).value)
  }

  /** A request naming a payment by its key, with the amount as its two-place text and a
      reason that is not blank, is accepted exactly when the payment succeeded, something of
      it is left and the amount fits what its completed refunds leave. */
  lemma KeyedRefundRequest(payments: seq<Payment>, refunds: seq<Refund>, p: Payment, cents: int, reason: string)
    requires FindByKey(payments, PaymentId, p.id) == Some(p)
    requires -10000000000 < cents < 10000000000 && Strip(reason) != ""
    ensures var req := RefundRequest(Some(PyInt(p.id)), Some(PyStr(CentsText(cents))), Some(PyStr(reason)));
      ValidateRefundRequest(payments, refunds, req) == Accepted
      <==> p.status == Success && CompletedRefunds(refunds, p) < p.amount && CompletedRefunds(refunds, p) + cents <= p.amount
  {
    var req := RefundRequest(Some(PyInt(p.id)), Some(PyStr(CentsText(cents))), Some(PyStr(reason)));
    AmountFieldReadsCentsText(cents);
    assert PkKey(req.payment) == Parsed(p.id);
    if PaymentFieldErrors(p, refunds) == [] {
      assert RefundPaymentField(payments, refunds, req.payment) == Parsed(p);
      assert ReasonField(req.reason) == Parsed(Strip(reason));
      StripIdempotent(reason);
      assert RefundFieldErrors(payments, refunds, req) == [];
    } else {
      assert RefundPaymentField(payments, refunds, req.payment).Rejected?;
    }
  }

  /** `RefundRequestSerializer` validation. The refundable balance is the payment amount less
      the refunds already completed; pending and failed refunds do not count. */
  function ValidateRefund(payment: Payment, refunds: seq<Refund>, amount: int, reason: string): (r: Validation)
    reads payment, refunds
    ensures r == Accepted <==> (payment.status == Success && Strip(reason) != ""
      && CompletedRefunds(refunds, payment) < payment.amount
      && amount <= payment.amount - CompletedRefunds(refunds, payment))
    ensures r == Accepted ==> CompletedRefunds(refunds, payment) + amount <= payment.amount
    ensures r.NonFieldError? ==>
      r.message == "Refund amount exceeds available: " + CentsText(payment.amount - CompletedRefunds(refunds, payment))
  {
    var paymentErrors := PaymentFieldErrors(payment, refunds);
    var reasonErrors := ReasonFieldErrors(reason);
    var available := payment.amount - CompletedRefunds(refunds, payment);
    if paymentErrors != [] || reasonErrors != [] then FieldErrors(paymentErrors + reasonErrors)
    else if amount > available then NonFieldError("Refund amount exceeds available: " + CentsText(available))
    else Accepted
  }

  /** `RefundRequestSerializer.create`: a pending refund with the reference
      "REF-<stamp>-<six upper-case hex digits>", the trimmed reason and the requester. */
  method CreateRefund(id: nat, payment: Payment, amount: int, reason: string, clock: DateTime, uuidHex: string,
                      user: nat) returns (r: Refund)
    requires ValidDateTime(clock) && UuidHex(uuidHex)
    ensures fresh(r)
    ensures r.payment == payment && r.amount == amount && r.reason == Strip(reason)
    ensures r.refundReference == TimedReference("REF", clock, uuidHex) && r.requestedBy == user
    ensures r.status == RefundPending && r.approvedBy == None && r.completedAt == None
    ensures r.externalReference == "" && r.errorMessage == ""
  {
    r := new Refund(id, payment, amount, Strip(reason), TimedReference("REF", clock, uuidHex), user);
  }
}
