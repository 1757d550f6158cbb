/**
 Reading the raw JSON payload: what a script sees when it follows property names through the
 tree, and the proof that the decoded Go structs show the same values.
 */
module Payload {
  import opened Wrappers
  import opened Decimals
  import opened GoJson
  import opened TicketButler

  /** A property; missing and null read alike. */
  function Prop(j: Json, key: string): Json {
    if j.Obj? && key in j.fields then j.fields[key] else Null
  }

  function TextOf(j: Json): string {
    if j.Str? then j.s else ""
  }

  function ItemsOf(j: Json): seq<Json> {
    if j.Arr? then j.items else []
  }

  function OrderItems(data: Json): seq<Json> {
    ItemsOf(Prop(data, "orders"))
  }

  function TicketItems(order: Json): seq<Json> {
    ItemsOf(Prop(order, "tickets"))
  }

  function FlagOf(j: Json): bool {
    j.Bool? && j.b
  }

  function IntOf(j: Json): int {
    if j.Num? then ParseInt64(j.text).GetOr(0) else 0
  }

  function FloatOf<F>(n: Floats<F>, j: Json): F {
    if j.Num? then n.parse(j.text).GetOr(n.zero) else n.zero
  }

  function MoneyOf<F>(n: Floats<F>, j: Json): F {
    if j.Num? then AmountOf(n, j.text).GetOr(n.zero)
    else if j.Str? then AmountOf(n, j.s).GetOr(n.zero)
    else n.zero
  }

  // ---- the payload read property by property ----

  function ReadAnswer(j: Json): Answer {
    var choices := ItemsOf(Prop(j, "answered_choices"));
    Answer(TextOf(Prop(j, "question_heading")),
           seq(|choices|, i requires 0 <= i < |choices| => TextOf(Prop(choices[i], "choice_heading"))))
  }

  function ReadAnswers(t: Json): seq<Answer> {
    var answers := ItemsOf(Prop(Prop(t, "ticket_answer_collection"), "answers"));
    seq(|answers|, i requires 0 <= i < |answers| => ReadAnswer(answers[i]))
  }

  function ReadTicket<F>(n: Floats<F>, t: Json): Ticket<F> {
    Ticket(IntOf(Prop(t, "ticket_type_pk")), TextOf(Prop(t, "ticket_type_name")),
           TextOf(Prop(t, "company_name")), TextOf(Prop(t, "email")), TextOf(Prop(t, "full_name")),
           MoneyOf(n, Prop(t, "price")), MoneyOf(n, Prop(t, "price_total")),
           ReadAnswers(t))
  }

  function ReadOrder<F>(n: Floats<F>, o: Json): Order<F> {
    var tickets := ItemsOf(Prop(o, "tickets"));
    Order(TextOf(Prop(o, "state")), FlagOf(Prop(o, "vat_exempt")), FloatOf(n, Prop(o, "vat_rate")),
          seq(|tickets|, i requires 0 <= i < |tickets| => ReadTicket(n, tickets[i])))
  }

  function ReadOrders<F>(n: Floats<F>, j: Json): Orders<F> {
    var orders := ItemsOf(Prop(j, "orders"));
    Orders(TextOf(Prop(j, "uuid")),
           seq(|orders|, i requires 0 <= i < |orders| => ReadOrder(n, orders[i])))
  }

  // ---- decoding shows the same ----

  /** One field of a decoded struct. */
  lemma DecodedField<F>(n: Floats<F>, tys: map<string, Ty>, j: Json, key: string)
    requires Decodes(n, TStruct(tys), j) && key in tys
    ensures Decodes(n, tys[key], Prop(j, key))
    ensures !tys[key].TRaw? ==>
      Field(Decoded(n, TStruct(tys), j), key) == Some(Decoded(n, tys[key], Prop(j, key)))
  {
    assert Decoded(n, tys[key], Null) == Zero(n, tys[key]) || tys[key].TRaw?;
  }

  lemma StringField<F>(n: Floats<F>, tys: map<string, Ty>, j: Json, key: string)
    requires Decodes(n, TStruct(tys), j) && key in tys && tys[key] == TString
    ensures StringAt(Decoded(n, TStruct(tys), j), key) == TextOf(Prop(j, key))
  {
    DecodedField(n, tys, j, key);
  }

  lemma BoolField<F>(n: Floats<F>, tys: map<string, Ty>, j: Json, key: string)
    requires Decodes(n, TStruct(tys), j) && key in tys && tys[key] == TBool
    ensures BoolAt(Decoded(n, TStruct(tys), j), key) == FlagOf(Prop(j, key))
  {
    DecodedField(n, tys, j, key);
  }

  lemma SliceField<F>(n: Floats<F>, tys: map<string, Ty>, j: Json, key: string, elem: Ty)
    requires Decodes(n, TStruct(tys), j) && key in tys && tys[key] == TSlice(elem)
    ensures forall i | 0 <= i < |ItemsOf(Prop(j, key))| :: Decodes(n, elem, ItemsOf(Prop(j, key))[i])
    ensures var v := ElemsAt(Decoded(n, TStruct(tys), j), key);
            |v| == |ItemsOf(Prop(j, key))|
            && forall i | 0 <= i < |v| :: v[i] == Decoded(n, elem, ItemsOf(Prop(j, key))[i])
  {
    DecodedField(n, tys, j, key);
  }

  lemma IntField<F>(n: Floats<F>, tys: map<string, Ty>, j: Json, key: string)
    requires Decodes(n, TStruct(tys), j) && key in tys && tys[key] == TInt
    ensures IntAt(Decoded(n, TStruct(tys), j), key) == IntOf(Prop(j, key))
  {
    DecodedField(n, tys, j, key);
  }

  lemma NumberField<F>(n: Floats<F>, tys: map<string, Ty>, j: Json, key: string)
    requires Decodes(n, TStruct(tys), j) && key in tys && (tys[key] == TAmount || tys[key] == TFloat)
    ensures NumberAt(n, Decoded(n, TStruct(tys), j), key)
         == if tys[key] == TAmount then MoneyOf(n, Prop(j, key)) else FloatOf(n, Prop(j, key))
  {
    DecodedField(n, tys, j, key);
  }

  lemma ChoiceFields()
    ensures var m := ChoiceTy().fields; "choice_heading" in m && m["choice_heading"] == TString
  {
  }

  lemma AnswerFields()
    ensures var m := AnswerTy().fields;
      && "question_heading" in m && m["question_heading"] == TString
      && "answered_choices" in m && m["answered_choices"] == TSlice(ChoiceTy())
  {
  }

  lemma TicketFields()
    ensures var m := TicketTy().fields;
      && "ticket_type_pk" in m && m["ticket_type_pk"] == TInt
      && "ticket_type_name" in m && m["ticket_type_name"] == TString
      && "company_name" in m && m["company_name"] == TString
      && "email" in m && m["email"] == TString
      && "full_name" in m && m["full_name"] == TString
      && "price" in m && m["price"] == TAmount
      && "price_total" in m && m["price_total"] == TAmount
      && "ticket_answer_collection" in m && m["ticket_answer_collection"] == TPtr(AnswerCollectionTy())
  {
    hide AnswerCollectionTy;
  }

  lemma OrderFields()
    ensures var m := OrderTy().fields;
      && "state" in m && m["state"] == TString
      && "vat_exempt" in m && m["vat_exempt"] == TBool
      && "vat_rate" in m && m["vat_rate"] == TFloat
      && "tickets" in m && m["tickets"] == TSlice(TicketTy())
  {
    hide AddressTy, OrderLineTy, TicketTy;
  }

  lemma OrdersFields()
    ensures var m := OrdersTy().fields;
      && "uuid" in m && m["uuid"] == TString
      && "orders" in m && m["orders"] == TSlice(OrderTy())
  {
    hide OrderTy;
  }

  lemma AnswerShown<F>(n: Floats<F>, j: Json)
    requires Decodes(n, AnswerTy(), j)
    ensures AnswerOf(Decoded(n, AnswerTy(), j)) == ReadAnswer(j)
  {
    hide AnswerTy, ChoiceTy, Decodes, Decoded;
    AnswerFields();
    ChoiceFields();
    IsStruct();
    StringField(n, AnswerTy().fields, j, "question_heading");
    SliceField(n, AnswerTy().fields, j, "answered_choices", ChoiceTy());
    var choices := ItemsOf(Prop(j, "answered_choices"));
    forall i | 0 <= i < |choices|
      ensures StringAt(Decoded(n, ChoiceTy(), choices[i]), "choice_heading")
           == TextOf(Prop(choices[i], "choice_heading"))
    {
      StringField(n, ChoiceTy().fields, choices[i], "choice_heading");
    }
    assert AnswerOf(Decoded(n, AnswerTy(), j)).choices == ReadAnswer(j).choices;
  }

  lemma IsStruct()
    ensures ChoiceTy().TStruct? && AnswerTy().TStruct? && AnswerCollectionTy().TStruct?
    ensures TicketTy().TStruct? && OrderTy().TStruct? && OrdersTy().TStruct?
  {
  }

  lemma AnswerCollectionFields()
    ensures var m := AnswerCollectionTy().fields; "answers" in m && m["answers"] == TSlice(AnswerTy())
  {
    hide AnswerTy;
  }

  lemma AnswersShown<F>(n: Floats<F>, j: Json)
    requires Decodes(n, TicketTy(), j)
    ensures AnswersOf(Decoded(n, TicketTy(), j)) == ReadAnswers(j)
  {
    hide TicketTy, AnswerCollectionTy, AnswerTy, AnswerOf, ReadAnswer, ElemsAt;
    TicketFields();
    AnswerCollectionFields();
    IsStruct();
    DecodedField(n, TicketTy().fields, j, "ticket_answer_collection");
    var c := Prop(j, "ticket_answer_collection");
    if !c.Null? {
      SliceField(n, AnswerCollectionTy().fields, c, "answers", AnswerTy());
      var answers := ItemsOf(Prop(c, "answers"));
      forall i | 0 <= i < |answers|
        ensures AnswerOf(Decoded(n, AnswerTy(), answers[i])) == ReadAnswer(answers[i])
      {
        AnswerShown(n, answers[i]);
      }
    }
  }

  lemma TicketShown<F>(n: Floats<F>, j: Json)
    requires Decodes(n, TicketTy(), j)
    ensures TicketOf(n, Decoded(n, TicketTy(), j)) == ReadTicket(n, j)
  {
    hide TicketTy, Decodes, Decoded, AnswersOf, ReadAnswers, Prop, TextOf, IntOf, MoneyOf, StringAt, IntAt, NumberAt;
    TicketFields();
    IsStruct();
    var tys := TicketTy().fields;
    IntField(n, tys, j, "ticket_type_pk");
    StringField(n, tys, j, "ticket_type_name");
    StringField(n, tys, j, "company_name");
    StringField(n, tys, j, "email");
    StringField(n, tys, j, "full_name");
    NumberField(n, tys, j, "price");
    NumberField(n, tys, j, "price_total");
    AnswersShown(n, j);
  }

  lemma OrderShown<F>(n: Floats<F>, j: Json)
    requires Decodes(n, OrderTy(), j)
    ensures OrderOf(n, Decoded(n, OrderTy(), j)) == ReadOrder(n, j)
  {
    hide OrderTy, TicketTy, Decodes, Decoded, TicketOf, ReadTicket, Prop, TextOf, FlagOf, FloatOf, StringAt,
         BoolAt, NumberAt, ElemsAt;
    OrderFields();
    IsStruct();
    var tys := OrderTy().fields;
    StringField(n, tys, j, "state");
    BoolField(n, tys, j, "vat_exempt");
    NumberField(n, tys, j, "vat_rate");
    SliceField(n, tys, j, "tickets", TicketTy());
    var tickets := ItemsOf(Prop(j, "tickets"));
    forall i | 0 <= i < |tickets| ensures TicketOf(n, Decoded(n, TicketTy(), tickets[i])) == ReadTicket(n, tickets[i]) {
      TicketShown(n, tickets[i]);
    }
    assert OrderOf(n, Decoded(n, OrderTy(), j)).tickets == ReadOrder(n, j).tickets;
  }

  /** The decoded structs show the aggregation exactly what a property-by-property reading shows. */
  lemma PayloadShown<F>(n: Floats<F>, j: Json)
    requires Decodes(n, OrdersTy(), j)
    ensures OrdersOf(n, Decoded(n, OrdersTy(), j)) == ReadOrders(n, j)
    ensures forall i | 0 <= i < |ItemsOf(Prop(j, "orders"))| :: Decodes(n, OrderTy(), ItemsOf(Prop(j, "orders"))[i])
  {
    hide OrdersTy, OrderTy, Decodes, Decoded, OrderOf, ReadOrder, Prop, TextOf, StringAt, ElemsAt;
    OrdersFields();
    IsStruct();
    var tys := OrdersTy().fields;
    StringField(n, tys, j, "uuid");
    SliceField(n, tys, j, "orders", OrderTy());
    var orders := ItemsOf(Prop(j, "orders"));
    forall i | 0 <= i < |orders| ensures OrderOf(n, Decoded(n, OrderTy(), orders[i])) == ReadOrder(n, orders[i]) {
      OrderShown(n, orders[i]);
    }
    assert OrdersOf(n, Decoded(n, OrdersTy(), j)).orders == ReadOrders(n, j).orders;
  }

  // ---- what is stored of a payload ----

  lemma TicketNames()
    ensures TicketTy().TStruct? && forall k | k in TicketTy().fields :: !TicketTy().fields[k].TRaw?
    ensures TicketTy().fields.Keys ==
      {"id", "uuid", "purchase_uuid", "ticket_type_pk", "ticket_type_name", "first_name", "last_name", "full_name",
       "email", "company_name", "price", "price_total", "checked_in", "ticket_refund", "ticket_answer_collection"}
  {
  }

  lemma OrderNames()
    ensures OrderTy().TStruct? && forall k | k in OrderTy().fields && OrderTy().fields[k].TRaw? :: k == "discount"
    ensures OrderTy().fields.Keys ==
      {"uuid", "order_id", "currency", "state", "date", "vat_exempt", "vat_rate", "news_letter", "payment_method",
       "address", "order_lines", "tickets", "discount"}
  {
  }

  /** An order line, its three amounts among its properties. */
  lemma LineNames()
    ensures OrderLineTy().TStruct? && OrderLineTy().fields.Keys ==
      {"uuid", "title", "type", "quantity", "price", "total", "discount_total", "amount_of_refunded_tickets",
       "ticket_description", "ticket_type_date", "has_ticket_type_date"}
    ensures forall k | k in OrderLineTy().fields && OrderLineTy().fields[k].TAmount? :: k == "price" || k == "total"
    ensures OrderLineTy().fields["price"] == OrderLineTy().fields["total"] == TAmount
    ensures OrderLineTy().fields["discount_total"] == TPtr(TAmount)
  {
  }

  lemma PartNames()
    ensures AddressTy().TStruct? && AddressTy().fields.Keys ==
      {"first_name", "last_name", "email", "phone", "business_name"}
    ensures AnswerCollectionTy().TStruct? && AnswerCollectionTy().fields.Keys == {"uuid", "answers"}
    ensures AnswerTy().TStruct? && AnswerTy().fields.Keys ==
      {"question_heading", "question_uuid", "variation", "answer_value", "answered_choices"}
    ensures ChoiceTy().TStruct? && ChoiceTy().fields.Keys == {"choice_uuid", "choice_heading"}
  {
  }

  /** So are its parts, and an order's. */
  lemma PartsStored<F>(n: Floats<F>, ty: Ty, j: Json)
    requires ty in [AddressTy(), OrderLineTy(), AnswerCollectionTy(), AnswerTy(), ChoiceTy()] && Decodes(n, ty, j)
    ensures ty.TStruct? && Encode(n, Decoded(n, ty, j)).Obj?
    ensures Encode(n, Decoded(n, ty, j)).fields.Keys == ty.fields.Keys
  {
    NoRawParts(ty);
    NamesStored(n, ty, j);
    hide AddressTy, OrderLineTy, AnswerCollectionTy, AnswerTy, ChoiceTy, Encode, Decoded;
  }

  lemma NoRawParts(ty: Ty)
    requires ty in [AddressTy(), OrderLineTy(), AnswerCollectionTy(), AnswerTy(), ChoiceTy()]
    ensures ty.TStruct? && forall k | k in ty.fields :: !ty.fields[k].TRaw?
  {
  }

  /** A ticket is stored with these properties, whichever of them it came with. */
  lemma TicketStored<F>(n: Floats<F>, t: Json)
    requires Decodes(n, TicketTy(), t)
    ensures var out := Encode(n, Decoded(n, TicketTy(), t));
      out.Obj? && out.fields.Keys ==
        {"id", "uuid", "purchase_uuid", "ticket_type_pk", "ticket_type_name", "first_name", "last_name", "full_name",
         "email", "company_name", "price", "price_total", "checked_in", "ticket_refund", "ticket_answer_collection"}
  {
    TicketNames();
    NamesStored(n, TicketTy(), t);
    hide TicketTy, Encode, Decoded;
  }

  /** So is an order, whose discount is left out when it came without one. */
  lemma OrderStored<F>(n: Floats<F>, o: Json)
    requires Decodes(n, OrderTy(), o)
    ensures var out, names := Encode(n, Decoded(n, OrderTy(), o)), OrderTy().fields.Keys;
      out.Obj? && (out.fields.Keys == names || out.fields.Keys == names - {"discount"})
  {
    OrderNames();
    NamesStored(n, OrderTy(), o);
    hide OrderTy, Encode, Decoded;
  }

  lemma NamesStored<F>(n: Floats<F>, ty: Ty, j: Json)
    requires ty.TStruct? && Decodes(n, ty, j)
    ensures var out := Encode(n, Decoded(n, ty, j));
      && out.Obj? && out.fields.Keys <= ty.fields.Keys
      && forall k | k in ty.fields && !ty.fields[k].TRaw? :: k in out.fields
  {
    NoneOmitted(n, ty, j);
  }

  /** Only a raw message can be left out. */
  lemma NoneOmitted<F>(n: Floats<F>, ty: Ty, j: Json)
    requires ty.TStruct? && Decodes(n, ty, j)
    ensures var v := Decoded(n, ty, j);
      v.fields.Keys == ty.fields.Keys && forall k | k in ty.fields && !ty.fields[k].TRaw? :: !Omitted(v.fields[k])
  {
  }
}
