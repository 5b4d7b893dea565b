/** The request validators of the API contract (the create-order body, the
    evidence-list query, the list-orders limit) and the response envelope. */
module Api {
  import opened Base
  import opened Text
  import opened Json
  import opened Schema

  // ----- Create-order body -----

  /** A create-order body once validated. */
  datatype CreateOrderInput = CreateOrderInput(orderType: OrderType, clientRequestId: Option<string>)

  /** The order type a body member names, if it is a string naming one. */
  function TypeField(v: Option<Json>): (r: Option<OrderType>)
    ensures r.Some? <==> v.Some? && v.value.JStr? && TypeOf(v.value.s).Some?
    ensures r.Some? ==> v == Some(JStr(TypeName(r.value)))
  {
    if v.Some? && v.value.JStr? then TypeOf(v.value.s) else None
  }

  /** The create-order body schema: an object whose `type` is one of the two type
      names and whose `client_request_id`, when present, is a string; any other
      member is dropped. `None` is a validation error. */
  function ValidateCreateOrder(body: Json): (r: Option<CreateOrderInput>)
    ensures r.Some? <==>
      body.JObj? && TypeField(Get(body, "type")).Some?
      && (Get(body, "client_request_id").None? || Get(body, "client_request_id").value.JStr?)
    ensures r.Some? ==> Get(body, "type") == Some(JStr(TypeName(r.value.orderType)))
    ensures r.Some? ==>
      if r.value.clientRequestId.Some?
      then Get(body, "client_request_id") == Some(JStr(r.value.clientRequestId.value))
      else Get(body, "client_request_id").None?
  {
    if !body.JObj? then None
    else
      match TypeField(Get(body, "type"))
      case None => None
      case Some(t) =>
        match Get(body, "client_request_id")
        case None => Some(CreateOrderInput(t, None))
        case Some(JStr(c)) => Some(CreateOrderInput(t, Some(c)))
        case Some(_) => None
  }

  /** The body a client sends for an input. */
  function CreateOrderBody(input: CreateOrderInput): Json {
    JObj([Member("type", JStr(TypeName(input.orderType)))]
      + if input.clientRequestId.Some? then [Member("client_request_id", JStr(input.clientRequestId.value))] else [])
  }

  /** The validator accepts exactly what a client sends for an input and gives it back. */
  lemma ValidateBody(input: CreateOrderInput)
    ensures ValidateCreateOrder(CreateOrderBody(input)) == Some(input)
  {
    var tm := Member("type", JStr(TypeName(input.orderType)));
    var ms := CreateOrderBody(input).members;
    assert LastValue([tm], "type") == Some(tm.value);
    assert LastValue([tm], "client_request_id") == None;
    if input.clientRequestId.Some? {
      assert |"type"| != |"client_request_id"|;
      assert ms == [tm] + [Member("client_request_id", JStr(input.clientRequestId.value))];
      assert ms[..|ms| - 1] == [tm];
    } else {
      assert ms == [tm];
    }
  }

  /** Members other than `type` and `client_request_id`, wherever they stand, do not
      change the outcome. */
  lemma ValidateIgnoresExtra(ms1: seq<Member>, extra: Member, ms2: seq<Member>)
    requires extra.key != "type" && extra.key != "client_request_id"
    ensures ValidateCreateOrder(JObj(ms1 + [extra] + ms2)) == ValidateCreateOrder(JObj(ms1 + ms2))
  {
    LastValueSkips(ms1, extra, ms2, "type");
    LastValueSkips(ms1, extra, ms2, "client_request_id");
  }

  // ----- Evidence-list query -----

  /** JavaScript truthiness of a query parameter: present and non-empty. */
  predicate Given(q: Option<string>) {
    q.Some? && q.value != ""
  }

  /** The evidence-list refinement: a runner id or an order id must be given. */
  function EvidenceQueryAccepted(runnerId: Option<string>, orderId: Option<string>): (ok: bool)
    ensures ok ==> runnerId.Some? || orderId.Some?
    ensures !ok <==> (runnerId.None? || runnerId == Some("")) && (orderId.None? || orderId == Some(""))
  {
    Given(runnerId) || Given(orderId)
  }

  // ----- List-orders limit -----

  /** The value of a trimmed text of the form `[+-]digits`; `None` stands for NaN. */
  function DecimalValue(t: string): (r: Option<int>)
    ensures r.Some? ==> |t| > 0
  {
    if |t| > 0 && (t[0] == '+' || t[0] == '-') then
      var ds := t[1..];
      if |ds| > 0 && AllDigits(ds) then
        var v: int := DigitsValue(ds);
        Some(if t[0] == '-' then -v else v)
      else None
    else if |t| > 0 && AllDigits(t) then Some(DigitsValue(t))
    else None
  }

  /** JavaScript `Number(q)` on a query parameter: a missing one is NaN, a blank one 0. */
  function NumberOf(q: Option<string>): (r: Option<int>)
    ensures q.None? ==> r.None?
  {
    match q
    case None => None
    case Some(s) =>
      var t := Trim(s);
      if t == "" then Some(0) else DecimalValue(t)
  }

  const DefaultLimit := 50

  /** `Number(q) || 50`: NaN and 0 fall back to 50, any other number is kept. */
  function ListLimit(q: Option<string>): (r: int)
    ensures r != 0
    ensures NumberOf(q).Some? && NumberOf(q).value != 0 ==> r == NumberOf(q).value
    ensures NumberOf(q).None? || NumberOf(q) == Some(0) ==> r == DefaultLimit
  {
    match NumberOf(q)
    case Some(n) => if n != 0 then n else DefaultLimit
    case None => DefaultLimit
  }

  /** `trim` leaves a decimal numeral as it is. */
  lemma DigitsTrim(t: string)
    requires |t| > 0 && AllDigits(t)
    ensures Trim(t) == t
  {
    assert IsDigit(t[0]) && IsDigit(t[|t| - 1]);
    assert !IsSpace(t[0]) && !IsSpace(t[|t| - 1]);
    TrimPadded("", t);
    assert "" + t == t;
  }

  /** `trim` leaves nothing of a blank text. */
  lemma BlankTrim(ws: string)
    ensures (forall i :: 0 <= i < |ws| ==> IsSpace(ws[i])) ==> Trim(ws) == []
  {
    if Trim(ws) != [] {
      assert !IsSpace(ws[LeadingSpace(ws)]);
    }
  }

  /** `Number` of a blank query text is 0. */
  lemma NumberOfBlank(ws: string)
    requires forall i :: 0 <= i < |ws| ==> IsSpace(ws[i])
    ensures NumberOf(Some(ws)) == Some(0)
  {
    BlankTrim(ws);
  }

  /** `Number` of a decimal numeral, after any white space, is its value. */
  lemma NumberOfNumeral(ws: string, n: nat)
    requires forall i :: 0 <= i < |ws| ==> IsSpace(ws[i])
    ensures NumberOf(Some(ws + NatText(n))) == Some(n)
  {
    var t := NatText(n);
    assert IsDigit(t[0]) && IsDigit(t[|t| - 1]);
    TrimPadded(ws, t);
    NatTextValue(n);
    assert DecimalValue(t) == Some(n);
  }

  /** `Number` of a minus sign before a decimal numeral is the negated value. */
  lemma NumberOfNegative(n: nat)
    ensures NumberOf(Some("-" + NatText(n))) == Some(-(n as int))
  {
    var t := NatText(n);
    SignedTrim(t);
    SignedValue(t);
    NatTextValue(n);
  }

  /** `trim` leaves a minus sign and a numeral as they are. */
  lemma SignedTrim(t: string)
    requires |t| > 0 && AllDigits(t)
    ensures Trim("-" + t) == "-" + t
  {
    var neg := "-" + t;
    assert neg[|neg| - 1] == t[|t| - 1] && IsDigit(t[|t| - 1]);
    TrimPadded("", neg);
    assert "" + neg == neg;
  }

  /** A minus sign negates the numeral after it. */
  lemma SignedValue(t: string)
    requires |t| > 0 && AllDigits(t)
    ensures DecimalValue("-" + t) == Some(-(DigitsValue(t) as int))
  {
    assert ("-" + t)[0] == '-' && ("-" + t)[1..] == t;
  }

  /** A limit written as a positive decimal number is taken as written. */
  lemma ListLimitOfText(n: nat)
    requires n > 0
    ensures ListLimit(Some(NatText(n))) == n
  {
    var t := NatText(n);
    DigitsTrim(t);
    assert IsDigit(t[0]);
    NatTextValue(n);
    assert DecimalValue(t) == Some(n);
  }

  /** A missing, blank or zero limit is the default of 50. */
  lemma ListLimitDefault(ws: string)
    requires forall i :: 0 <= i < |ws| ==> IsSpace(ws[i])
    ensures ListLimit(None) == DefaultLimit
    ensures ListLimit(Some(ws)) == DefaultLimit
    ensures ListLimit(Some("0")) == DefaultLimit
  {
    BlankTrim(ws);
    NatTextValue(0);
    assert NatText(0) == "0";
    DigitsTrim("0");
    assert DecimalValue("0") == Some(0);
  }

  // ----- Response envelope -----

  /** The error a handler raises: its code and message, either possibly missing. */
  datatype Raised = Raised(code: Option<string>, message: Option<string>)

  datatype ErrorBody = ErrorBody(code: string, message: string)

  /** The body of every response; the request metadata is not modelled. */
  datatype Envelope<T> = Envelope(ok: bool, data: Option<T>, error: Option<ErrorBody>)

  datatype Response<T> = Response(status: int, body: Envelope<T>)

  const UnknownError := "UNKNOWN_ERROR"
  const DefaultMessage := "An error occurred"

  /** `respond`: `ok` is true exactly when no error is raised; a raised error's
      missing or empty code and message fall back to defaults. */
  function Respond<T>(data: Option<T>, error: Option<Raised>, status: int): (r: Response<T>)
    ensures r.status == status && r.body.data == data
    ensures r.body.ok <==> r.body.error.None?
    ensures r.body.error.Some? <==> error.Some?
    ensures r.body.error.Some? ==> r.body.error.value.code != "" && r.body.error.value.message != ""
    ensures r.body.error.Some? ==>
      r.body.error.value.code == if Given(error.value.code) then error.value.code.value else UnknownError
    ensures r.body.error.Some? ==>
      r.body.error.value.message == if Given(error.value.message) then error.value.message.value else DefaultMessage
  {
    match error
    case None => Response(status, Envelope(true, data, None))
    case Some(e) =>
      var code := if Given(e.code) then e.code.value else UnknownError;
      var message := if Given(e.message) then e.message.value else DefaultMessage;
      Response(status, Envelope(false, data, Some(ErrorBody(code, message))))
  }
}
