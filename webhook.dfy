/**
 * webhook_forwarder.py: the payment gateway's callback. A fixed chain of guards (no JSON
 * body, wrong shared secret, unparsable amount, unknown student) answers with an error and
 * leaves the store alone; otherwise the ledger appends a "Gateway" row, with no receipt.
 */
module Webhook {
  import opened Wrappers
  import opened Models
  import opened Utils
  import opened Ledger
  import opened Database

  /** The secret used when WEBHOOK_SECRET is not set. */
  const DEFAULT_SHARED_SECRET := "webhook_secret_change"
  const DEFAULT_PURPOSE := "Tuition"
  /** The `recorded_by` value of every gateway row. */
  const GATEWAY_ACTOR := "gateway"

  /** The JSON value under "amount": a number, or text that `float()` may parse. */
  datatype AmountField = Number(value: real) | Text(text: string)

  /** The JSON object posted; `otherKeys` counts keys the handler does not read. */
  datatype Payload = Payload(
    secret: Option<string>, studentId: Option<string>, amount: Option<AmountField>,
    transactionId: Option<string>, purpose: Option<string>, otherKeys: nat)
  {
    /** `{}` is falsy in Python. */
    predicate IsEmpty() {
      secret == None && studentId == None && amount == None && transactionId == None
      && purpose == None && otherKeys == 0
    }
  }

  /**
   * `request.get_json()`: no JSON at all; a top-level value that is not an object (an array,
   * string, number or boolean, of which only its truthiness matters here); or an object.
   */
  datatype Body = NoJson | NonObject(truthy: bool) | Json(payload: Payload)

  /** The handler's answers. */
  datatype Response = NoJsonError | Unauthorized | StudentNotFound | ServerError | Ok(receiptId: string)
  {
    function Status(): nat {
      match this
      case NoJsonError => 400
      case Unauthorized => 401
      case StudentNotFound => 404
      case ServerError => 500
      case Ok(_) => 200
    }
  }

  /** `not payload` is false: the body passes the first guard. `[]`, `""`, `0`, `false` and `{}` are falsy. */
  predicate Truthy(body: Body): (b: bool)
    ensures !b <==> body == NoJson || body == NonObject(false) || body == Json(Payload(None, None, None, None, None, 0))
  {
    match body
    case NoJson => false
    case NonObject(truthy) => truthy
    case Json(p) => !p.IsEmpty()
  }

  /**
   * `float(payload.get("amount", 0))`. `parseFloat` is `float()` applied to text, None where
   * it raises ValueError; the exception reaches Flask as a 500.
   */
  function AmountOf(field: Option<AmountField>, parseFloat: string -> Option<real>): (r: Option<real>)
    ensures field == None ==> r == Some(0.0)
    ensures field != None && field.value.Number? ==> r == Some(field.value.value)
    ensures field != None && field.value.Text? ==> r == parseFloat(field.value.text)
  {
    match field
    case None => Some(0.0)
    case Some(Number(x)) => Some(x)
    case Some(Text(t)) => parseFloat(t)
  }

  /** Where the guard chain leaves a request: an error answer, or the payment to append. */
  datatype Verdict = Refuse(response: Response) | Proceed(studentIndex: nat, payment: Payment)

  /**
   * The guards of `webhook()` in source order: 400, then `payload.get` (a truthy value that is
   * not an object raises AttributeError, a 500), then 401, then the amount conversion, then
   * 404. `txnFallback` is the generated "TXN-..." id.
   */
  function Screen(
    body: Body, sharedSecret: string, students: seq<Student>,
    parseFloat: string -> Option<real>, txnFallback: string)
    : (v: Verdict)
    ensures v == Refuse(NoJsonError) <==> !Truthy(body)
    ensures v == Refuse(Unauthorized) <==>
              Truthy(body) && body.Json? && body.payload.secret != Some(sharedSecret)
    ensures v == Refuse(ServerError) <==>
              Truthy(body)
              && (body.NonObject?
                  || (body.Json? && body.payload.secret == Some(sharedSecret)
                      && AmountOf(body.payload.amount, parseFloat) == None))
    ensures v == Refuse(StudentNotFound) <==>
              Truthy(body) && body.Json? && body.payload.secret == Some(sharedSecret)
              && AmountOf(body.payload.amount, parseFloat) != None
              && FindByStudentId(students, body.payload.studentId) == None
    ensures v.Refuse? ==> !v.response.Ok?
    ensures v.Proceed? ==>
              && Truthy(body) && body.Json? && body.payload.secret == Some(sharedSecret)
              && v.studentIndex < |students|
              && body.payload.studentId == Some(students[v.studentIndex].studentId)
              && Some(v.payment.amount) == AmountOf(body.payload.amount, parseFloat)
              && v.payment.mode == Gateway && v.payment.recordedBy == GATEWAY_ACTOR
              && v.payment.purpose == body.payload.purpose.GetOr(DEFAULT_PURPOSE)
              && v.payment.transactionId == TransactionReference(body.payload.transactionId.GetOr(""), txnFallback)
  {
    if !Truthy(body) then Refuse(NoJsonError)
    else if body.NonObject? then Refuse(ServerError)
    else
      var p := body.payload;
      if p.secret != Some(sharedSecret) then Refuse(Unauthorized)
      else match AmountOf(p.amount, parseFloat)
        case None => Refuse(ServerError)
        case Some(amount) =>
          match FindByStudentId(students, p.studentId)
          case None => Refuse(StudentNotFound)
          case Some(i) =>
            Proceed(i, Payment(amount, Gateway, TransactionReference(p.transactionId.GetOr(""), txnFallback),
                               p.purpose.GetOr(DEFAULT_PURPOSE), GATEWAY_ACTOR))
  }

  /**
   * `webhook()`: screens the request, then appends the gateway row under a fresh "REC-..."
   * id. A receipt id already in the table fails the commit (a 500) and appends nothing.
   */
  method HandleWebhook(
    store: Store, body: Body, sharedSecret: string, parseFloat: string -> Option<real>,
    txnDraw: Draw, receiptDraw: Draw, now: nat)
    returns (resp: Response)
    requires store.Valid()
    modifies store`fees
    ensures store.Valid()
    ensures !resp.Ok? ==> store.fees == old(store.fees)
    ensures var v := Screen(body, sharedSecret, store.students, parseFloat,
                            GenericId("TXN", txnDraw.millis, txnDraw.rand));
            var rid := GenericId("REC", receiptDraw.millis, receiptDraw.rand);
            && (v.Refuse? ==> resp == v.response)
            && (v.Proceed? && rid in ReceiptIds(old(store.fees)) ==> resp == ServerError)
            && (v.Proceed? && rid !in ReceiptIds(old(store.fees)) ==>
                  resp == Ok(rid)
                  && store.fees == old(store.fees)
                       + [NextRow(old(store.fees), store.students[v.studentIndex], v.payment, rid, now)])
  {
    var txnFallback := GenericId("TXN", txnDraw.millis, txnDraw.rand);
    var v := Screen(body, sharedSecret, store.students, parseFloat, txnFallback);
    if v.Refuse? {
      resp := v.response;
    } else {
      var rid := GenericId("REC", receiptDraw.millis, receiptDraw.rand);
      var ok := store.AppendPayment(v.studentIndex, v.payment, rid, now);
      resp := if ok then Ok(rid) else ServerError;
    }
  }
}
