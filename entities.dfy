/** Records shared by the store and several screens. */
module Entities {
  import opened Wrappers
  import opened Dict

  /** A field value of a loosely typed record such as a patient or a tenant. */
  datatype Value = Str(s: string) | Num(n: real)

  /** A JavaScript object with string keys in insertion order. */
  type Record = Dict<Value>

  /** `record[key]` used as text; a missing or non-text field reads as "". */
  function TextField(r: Record, key: string): string {
    var v: Option<Value> := Get(r, key);
    if v.Some? && v.value.Str? then v.value.s else ""
  }

  /** One line of a treatment breakdown; `total` may be missing. */
  datatype LineItem = LineItem(id: string, kind: string, name: string, quantity: real, unitPrice: real, total: Option<real>)

  datatype Consultation = Consultation(
    treatmentName: string,
    totalCost: real,
    insuranceCoverage: real,
    downPayment: real,
    installments: int,
    breakdown: seq<LineItem>)

  datatype Agreement = Agreement(
    finalized: bool,
    signed: bool,
    signatureData: Option<string>,
    sentForSignature: bool,
    sentDate: Option<string>)

  datatype PaymentState = PaymentState(
    completed: bool,
    transactionId: Option<string>,
    payMethod: Option<string>,
    startTime: Option<int>)

  /** An entry of the payment history. */
  datatype PaymentRecord = PaymentRecord(
    id: string,
    date: string,
    amount: real,
    kind: string,
    status: string,
    transactionId: string,
    payMethod: string,
    patientId: string,
    patientName: string)

  datatype MethodDetails =
    | CardDetails(cardLast4: string, expiry: string, brand: string)
    | BankDetails(bankAccount: string, routingNumber: string)

  /** A stored payment method; `kind` is "credit" or "ach". */
  datatype SavedMethod = SavedMethod(id: string, kind: string, details: MethodDetails)

  /** A message exchanged with a patient; `response` is "" when there is none. */
  datatype Communication = Communication(
    id: string,
    date: string,
    kind: string,
    direction: string,
    content: string,
    response: string,
    status: string)

  datatype TimelineStep = TimelineStep(title: string, description: string, date: string, completed: bool, active: bool)

  /** A follow-up entry of the store; the first three parts can be absent. */
  datatype FollowUp = FollowUp(
    status: Option<string>,
    sequence: Option<string>,
    timeline: Option<seq<TimelineStep>>,
    communications: seq<Communication>)
}
