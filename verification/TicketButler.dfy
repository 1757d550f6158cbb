/**
 The orders payload of internal/ticketbutler/types.go: the struct declarations that
 encoding/json decodes into, and a typed view of the fields the aggregation reads.
 Money and VAT rates have the abstract number type F.
 */
module TicketButler {
  import opened Wrappers
  import opened Strings
  import opened GoJson

  // ---- the struct declarations ----

  function OrdersTy(): Ty {
    TStruct(map["uuid" := TString, "orders" := TSlice(OrderTy())])
  }

  function OrderTy(): Ty {
    TStruct(map[
      "uuid" := TString, "order_id" := TString, "currency" := TString, "state" := TString, "date" := TString,
      "vat_exempt" := TBool, "vat_rate" := TFloat, "news_letter" := TBool, "payment_method" := TString,
      "address" := AddressTy(), "discount" := TRaw,
      "order_lines" := TSlice(OrderLineTy()), "tickets" := TSlice(TicketTy())])
  }

  function AddressTy(): Ty {
    TStruct(map[
      "first_name" := TString, "last_name" := TString, "email" := TString, "phone" := TString,
      "business_name" := TString])
  }

  function OrderLineTy(): Ty {
    TStruct(map[
      "uuid" := TString, "title" := TString, "type" := TString, "quantity" := TInt,
      "price" := TAmount, "total" := TAmount, "discount_total" := TPtr(TAmount),
      "amount_of_refunded_tickets" := TInt, "ticket_description" := TPtr(TString),
      "ticket_type_date" := TString, "has_ticket_type_date" := TBool])
  }

  function TicketTy(): Ty {
    TStruct(map[
      "id" := TInt, "uuid" := TString, "purchase_uuid" := TString,
      "ticket_type_pk" := TInt, "ticket_type_name" := TString,
      "first_name" := TString, "last_name" := TString, "full_name" := TString,
      "email" := TString, "company_name" := TString,
      "price" := TAmount, "price_total" := TAmount,
      "checked_in" := TBool, "ticket_refund" := TBool,
      "ticket_answer_collection" := TPtr(AnswerCollectionTy())])
  }

  function AnswerCollectionTy(): Ty {
    TStruct(map["uuid" := TString, "answers" := TSlice(AnswerTy())])
  }

  function AnswerTy(): Ty {
    TStruct(map[
      "question_heading" := TString, "question_uuid" := TString, "variation" := TString,
      "answer_value" := TString, "answered_choices" := TSlice(ChoiceTy())])
  }

  function ChoiceTy(): Ty {
    TStruct(map["choice_uuid" := TString, "choice_heading" := TString])
  }

  // ---- the fields the aggregation reads ----

  datatype Answer = Answer(heading: string, choices: seq<string>)

  datatype Ticket<+F> = Ticket(
    typePk: int, typeName: string,
    company: string, email: string, fullName: string,
    price: F, priceTotal: F,
    answers: seq<Answer>)

  datatype Order<+F> = Order(state: string, vatExempt: bool, vatRate: F, tickets: seq<Ticket<F>>)

  datatype Orders<+F> = Orders(uuid: string, orders: seq<Order<F>>)

  function Field<F>(v: Val<F>, key: string): Option<Val<F>> {
    if v.VStruct? && key in v.fields then Some(v.fields[key]) else None
  }

  function StringAt<F>(v: Val<F>, key: string): string {
    var f := Field(v, key);
    if f.Some? && f.value.VString? then f.value.s else ""
  }

  function IntAt<F>(v: Val<F>, key: string): int {
    var f := Field(v, key);
    if f.Some? && f.value.VInt? then f.value.i else 0
  }

  function BoolAt<F>(v: Val<F>, key: string): bool {
    var f := Field(v, key);
    f.Some? && f.value.VBool? && f.value.b
  }

  function NumberAt<F>(n: Floats<F>, v: Val<F>, key: string): F {
    var f := Field(v, key);
    if f.Some? && f.value.VAmount? then f.value.amount
    else if f.Some? && f.value.VFloat? then f.value.f
    else n.zero
  }

  function ElemsAt<F>(v: Val<F>, key: string): (r: seq<Val<F>>)
    ensures forall e | e in r :: e < v
  {
    var f := Field(v, key);
    if f.Some? && f.value.VSlice? then f.value.elems else []
  }

  function AnswerOf<F>(v: Val<F>): Answer {
    var choices := ElemsAt(v, "answered_choices");
    Answer(StringAt(v, "question_heading"),
           seq(|choices|, i requires 0 <= i < |choices| => StringAt(choices[i], "choice_heading")))
  }

  /** Ticket.Answers: no answer collection means no answers. */
  function AnswersOf<F>(v: Val<F>): seq<Answer> {
    var c := Field(v, "ticket_answer_collection");
    if c.Some? && c.value.VPtr? && c.value.target.Some? then
      var answers := ElemsAt(c.value.target.value, "answers");
      seq(|answers|, i requires 0 <= i < |answers| => AnswerOf(answers[i]))
    else []
  }

  function TicketOf<F>(n: Floats<F>, v: Val<F>): Ticket<F> {
    Ticket(IntAt(v, "ticket_type_pk"), StringAt(v, "ticket_type_name"),
           StringAt(v, "company_name"), StringAt(v, "email"), StringAt(v, "full_name"),
           NumberAt(n, v, "price"), NumberAt(n, v, "price_total"),
           AnswersOf(v))
  }

  function OrderOf<F>(n: Floats<F>, v: Val<F>): Order<F> {
    var tickets := ElemsAt(v, "tickets");
    Order(StringAt(v, "state"), BoolAt(v, "vat_exempt"), NumberAt(n, v, "vat_rate"),
          seq(|tickets|, i requires 0 <= i < |tickets| => TicketOf(n, tickets[i])))
  }

  function OrdersOf<F>(n: Floats<F>, v: Val<F>): Orders<F> {
    var orders := ElemsAt(v, "orders");
    Orders(StringAt(v, "uuid"),
           seq(|orders|, i requires 0 <= i < |orders| => OrderOf(n, orders[i])))
  }

  // ---- answers ----

  /** The heading of the first selected option, or "". */
  function FirstChoice(a: Answer): string {
    if a.choices == [] then "" else a.choices[0]
  }

  predicate Asks(a: Answer, heading: string) {
    Trim(a.heading) == heading
  }

  function FirstAnswer(answers: seq<Answer>, heading: string): Option<Answer> {
    if answers == [] then None
    else if Asks(answers[0], heading) then Some(answers[0])
    else FirstAnswer(answers[1..], heading)
  }

  /** What "the answer for a heading" means: nothing asked, or the earliest that asks. */
  lemma {:induction false} FirstAnswerIsEarliest(answers: seq<Answer>, heading: string, i: nat)
    requires i < |answers| && Asks(answers[i], heading)
    requires forall k | 0 <= k < i :: !Asks(answers[k], heading)
    ensures FirstAnswer(answers, heading) == Some(answers[i])
  {
    hide Asks;
    if i > 0 { FirstAnswerIsEarliest(answers[1..], heading, i - 1); }
  }

  lemma {:induction false} NoAnswer(answers: seq<Answer>, heading: string)
    requires forall k | 0 <= k < |answers| :: !Asks(answers[k], heading)
    ensures FirstAnswer(answers, heading) == None
  {
    hide Asks;
    if answers != [] { NoAnswer(answers[1..], heading); }
  }

  /** The search loop of Ticket.AnswerFor; headings are compared after trimming. */
  method AnswerFor<F>(t: Ticket<F>, heading: string) returns (r: Option<Answer>)
    ensures r == FirstAnswer(t.answers, heading)
  {
    hide Asks;
    for i := 0 to |t.answers|
      invariant forall k | 0 <= k < i :: !Asks(t.answers[k], heading)
    {
      if Asks(t.answers[i], heading) {
        FirstAnswerIsEarliest(t.answers, heading, i);
        return Some(t.answers[i]);
      }
    }
    NoAnswer(t.answers, heading);
    return None;
  }
}
