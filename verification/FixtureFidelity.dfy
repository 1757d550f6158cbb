/**
 The anonymised fixture gives the numbers the real payload gives: whatever the port can decode
 it can still decode, and the summary is the same apart from the event id.
 */
module FixtureFidelity {
  import opened Strings
  import opened Decimals
  import opened GoJson
  import opened TicketButler
  import opened Aggregate
  import opened Payload
  import opened Anonymizer

  // ---- the summary survives ----

  /** A type whose rewritten fields are all plain strings. */
  predicate ScrubSafe(ty: Ty) {
    match ty
    case TPtr(u) => ScrubSafe(u)
    case TSlice(u) => ScrubSafe(u)
    case TMap(_) => false
    case TStruct(fields) =>
      forall k | k in fields :: fields[k] == TString || (RoleOf(k) == Plain && ScrubSafe(fields[k]))
    case _ => true
  }

  lemma ReplacementIsString(py: Py, fields: map<string, Json>, key: string, value: Json, id: Identity)
    requires value.Str? || value.Null?
    ensures Replaced(py, key, value) ==>
      var r := Replacement(py, fields, key, value, id);
      r.Str? || r.Null?
  {
    hide RoleOf, AnswerText, FakeUuid;
  }

  /** Whatever Go could decode before scrubbing, it can decode after. */
  lemma {:induction false} ScrubDecodes<F>(n: Floats<F>, py: Py, ty: Ty, j: Json, id: Identity)
    requires Decodes(n, ty, j) && ScrubSafe(ty)
    ensures Decodes(n, ty, Scrub(py, j, id))
    decreases j, ty
  {
    hide RoleOf, Replaced, Replacement;
    match ty
    case TPtr(u) => if !j.Null? { ScrubDecodes(n, py, u, j, id); }
    case TSlice(u) =>
      if j.Arr? {
        forall i | 0 <= i < |j.items| ensures Decodes(n, u, Scrub(py, j.items[i], id)) {
          ScrubDecodes(n, py, u, j.items[i], id);
        }
      }
    case TStruct(fields) =>
      if j.Obj? {
        var out := Scrub(py, j, id).fields;
        forall k | k in out && k in fields ensures Decodes(n, fields[k], out[k]) {
          StructFieldDecodes(n, py, fields[k], j.fields, k, id);
          if fields[k] != TString { ScrubDecodes(n, py, fields[k], j.fields[k], id); }
        }
      }
    case _ =>
  }

  lemma StructFieldDecodes<F>(n: Floats<F>, py: Py, ty: Ty, fields: map<string, Json>, k: string, id: Identity)
    requires k in fields && Decodes(n, ty, fields[k])
    ensures ty == TString ==> Decodes(n, ty, Scrub(py, Obj(fields), id).fields[k])
    ensures RoleOf(k) == Plain ==> Scrub(py, Obj(fields), id).fields[k] == Scrub(py, fields[k], id)
  {
    hide RoleOf, Replacement;
    if ty == TString { ReplacementIsString(py, fields, k, fields[k], id); }
  }

  // ---- key names ----

  /** A name in which no u follows a u does not contain "uuid". */
  lemma {:induction false} NoUuid(key: string)
    requires forall i | 0 <= i < |key| - 1 :: !(key[i] == 'u' && key[i + 1] == 'u')
    ensures !Contains(key, "uuid")
  {
    assert !("uuid" <= key) by { assert "uuid"[0] == 'u' && "uuid"[1] == 'u'; }
    if key != "" { NoUuid(key[1..]); }
  }

  lemma AddressSafe()
    ensures ScrubSafe(AddressTy())
  {
    hide RoleOf;
  }

  lemma OrderLineKeysPlain()
    ensures RoleOf("quantity") == RoleOf("total") == RoleOf("discount_total") == Plain
  {
    hide Contains;
    NoUuid("quantity"); NoUuid("total"); NoUuid("discount_total");
  }

  lemma OrderLineKeysPlain'()
    ensures RoleOf("amount_of_refunded_tickets") == RoleOf("ticket_description") == Plain
    ensures RoleOf("has_ticket_type_date") == Plain
  {
    hide Contains;
    NoUuid("amount_of_refunded_tickets"); NoUuid("ticket_description"); NoUuid("has_ticket_type_date");
  }

  lemma PriceKeysPlain()
    ensures RoleOf("price") == RoleOf("price_total") == RoleOf("ticket_type_name") == Plain
  {
    hide Contains;
    NoUuid("price"); NoUuid("price_total"); NoUuid("ticket_type_name");
  }

  lemma TicketKeysPlain()
    ensures RoleOf("id") == RoleOf("ticket_type_pk") == RoleOf("checked_in") == Plain
  {
    hide Contains;
    NoUuid("id"); NoUuid("ticket_type_pk"); NoUuid("checked_in");
  }

  lemma TicketKeysPlain'()
    ensures RoleOf("ticket_refund") == RoleOf("ticket_answer_collection") == Plain
  {
    hide Contains;
    NoUuid("ticket_refund"); NoUuid("ticket_answer_collection");
  }

  lemma AnswerKeysPlain()
    ensures RoleOf("answers") == RoleOf("answered_choices") == Plain
    ensures RoleOf("question_heading") == RoleOf("choice_heading") == Plain
  {
    AnswerHeadingsPlain();
    hide Contains;
    NoUuid("answers"); NoUuid("answered_choices");
  }

  lemma AnswerHeadingsPlain()
    ensures RoleOf("question_heading") == RoleOf("choice_heading") == Plain
  {
    hide Contains;
    NoUuid("question_heading"); NoUuid("choice_heading");
  }

  /** A struct with one safe field more is safe. */
  lemma WithSafe(tys: map<string, Ty>, k: string, ty: Ty) returns (tys': map<string, Ty>)
    requires ScrubSafe(TStruct(tys)) && (ty == TString || (RoleOf(k) == Plain && ScrubSafe(ty)))
    ensures tys' == tys[k := ty] && ScrubSafe(TStruct(tys'))
  {
    hide RoleOf;
    tys' := tys[k := ty];
  }

  lemma SafeLeaves()
    ensures ScrubSafe(TInt) && ScrubSafe(TBool) && ScrubSafe(TAmount)
    ensures ScrubSafe(TPtr(TAmount)) && ScrubSafe(TPtr(TString))
    ensures ScrubSafe(TStruct(map[]))
  {
  }

  lemma OrderLineSafe()
    ensures ScrubSafe(OrderLineTy())
  {
    hide RoleOf, ScrubSafe;
    OrderLineKeysPlain();
    OrderLineKeysPlain'();
    PriceKeysPlain();
    SafeLeaves();
    var t := WithSafe(map[], "uuid", TString);
    t := WithSafe(t, "title", TString);
    t := WithSafe(t, "type", TString);
    t := WithSafe(t, "quantity", TInt);
    t := WithSafe(t, "price", TAmount);
    t := WithSafe(t, "total", TAmount);
    t := WithSafe(t, "discount_total", TPtr(TAmount));
    t := WithSafe(t, "amount_of_refunded_tickets", TInt);
    t := WithSafe(t, "ticket_description", TPtr(TString));
    t := WithSafe(t, "ticket_type_date", TString);
    t := WithSafe(t, "has_ticket_type_date", TBool);
  }

  lemma TicketSafe()
    ensures ScrubSafe(TicketTy())
  {
    CollectionSafe();
    assert ScrubSafe(TPtr(AnswerCollectionTy()));
    hide RoleOf, AnswerCollectionTy, ScrubSafe;
    TicketKeysPlain();
    TicketKeysPlain'();
    PriceKeysPlain();
    SafeLeaves();
    var t := WithSafe(map[], "id", TInt);
    t := WithSafe(t, "uuid", TString);
    t := WithSafe(t, "purchase_uuid", TString);
    t := WithSafe(t, "ticket_type_pk", TInt);
    t := WithSafe(t, "ticket_type_name", TString);
    t := WithSafe(t, "first_name", TString);
    t := WithSafe(t, "last_name", TString);
    t := WithSafe(t, "full_name", TString);
    t := WithSafe(t, "email", TString);
    t := WithSafe(t, "company_name", TString);
    t := WithSafe(t, "price", TAmount);
    t := WithSafe(t, "price_total", TAmount);
    t := WithSafe(t, "checked_in", TBool);
    t := WithSafe(t, "ticket_refund", TBool);
    t := WithSafe(t, "ticket_answer_collection", TPtr(AnswerCollectionTy()));
  }

  lemma CollectionSafe()
    ensures ScrubSafe(AnswerCollectionTy())
  {
    hide RoleOf, AnswerTy;
    AnswerKeysPlain();
    AnswerSafe();
  }

  lemma AnswerSafe()
    ensures ScrubSafe(AnswerTy())
  {
    hide RoleOf, ChoiceTy;
    AnswerKeysPlain();
    ChoiceSafe();
  }

  lemma ChoiceSafe()
    ensures ScrubSafe(ChoiceTy())
  {
    hide RoleOf;
  }

  // ---- what the aggregation reads is untouched ----

  lemma PropScrubbed(py: Py, j: Json, key: string, id: Identity)
    requires RoleOf(key) == Plain
    ensures Prop(Scrub(py, j, id), key) == Scrub(py, Prop(j, key), id)
  {
    hide RoleOf, Replacement;
  }

  lemma AnswerScrubbed(py: Py, a: Json, id: Identity)
    ensures ReadAnswer(Scrub(py, a, id)) == ReadAnswer(a)
  {
    hide RoleOf, Prop;
    AnswerKeysPlain();
    PropScrubbed(py, a, "question_heading", id);
    PropScrubbed(py, a, "answered_choices", id);
    var choices := ItemsOf(Prop(a, "answered_choices"));
    var after := ItemsOf(Prop(Scrub(py, a, id), "answered_choices"));
    forall i | 0 <= i < |choices|
      ensures TextOf(Prop(after[i], "choice_heading")) == TextOf(Prop(choices[i], "choice_heading"))
    {
      PropScrubbed(py, choices[i], "choice_heading", id);
    }
    assert ReadAnswer(Scrub(py, a, id)).choices == ReadAnswer(a).choices;
  }

  lemma AnswersScrubbed(py: Py, t: Json, id: Identity)
    ensures ReadAnswers(Scrub(py, t, id)) == ReadAnswers(t)
  {
    hide RoleOf, Prop, ReadAnswer;
    TicketKeysPlain'();
    AnswerKeysPlain();
    var c := Prop(t, "ticket_answer_collection");
    PropScrubbed(py, t, "ticket_answer_collection", id);
    PropScrubbed(py, c, "answers", id);
    var answers := ItemsOf(Prop(c, "answers"));
    forall i | 0 <= i < |answers| ensures ReadAnswer(Scrub(py, answers[i], id)) == ReadAnswer(answers[i]) {
      AnswerScrubbed(py, answers[i], id);
    }
  }

  /** Two tickets the aggregation cannot tell apart. */
  ghost predicate SameTicket<F>(a: Ticket<F>, b: Ticket<F>) {
    a.typeName == b.typeName && a.price == b.price && a.priceTotal == b.priceTotal && a.answers == b.answers
  }

  ghost predicate SameOrder<F>(a: Order<F>, b: Order<F>) {
    && a.state == b.state && a.vatExempt == b.vatExempt && a.vatRate == b.vatRate
    && |a.tickets| == |b.tickets| && forall j | 0 <= j < |a.tickets| :: SameTicket(a.tickets[j], b.tickets[j])
  }

  ghost predicate SameOrders<F>(a: seq<Order<F>>, b: seq<Order<F>>) {
    |a| == |b| && forall i | 0 <= i < |a| :: SameOrder(a[i], b[i])
  }

  lemma TicketScrubbed<F>(n: Floats<F>, py: Py, t: Json, id: Identity)
    ensures SameTicket(ReadTicket(n, t), ReadTicket(n, Scrub(py, t, id)))
  {
    hide RoleOf, Prop, ReadAnswers;
    PriceKeysPlain();
    PropScrubbed(py, t, "ticket_type_name", id);
    PropScrubbed(py, t, "price", id);
    PropScrubbed(py, t, "price_total", id);
    AnswersScrubbed(py, t, id);
  }

  lemma TicketPrepared<F>(n: Floats<F>, t: Json, i: nat, j: nat, verbose: bool)
    requires t.Obj?
    ensures SameTicket(ReadTicket(n, t), ReadTicket(n, Prepared(t, i, j, verbose)))
  {
    PreparedKeeps(t, i, j, verbose, "ticket_type_name");
    PreparedKeeps(t, i, j, verbose, "price");
    PreparedKeeps(t, i, j, verbose, "price_total");
    PreparedKeeps(t, i, j, verbose, "ticket_answer_collection");
    hide Prop, Prepared;
  }

  lemma PreparedKeeps(t: Json, i: nat, j: nat, verbose: bool, key: string)
    requires t.Obj? && key != "id" && key != "answers" && key != "questions"
    ensures Prop(Prepared(t, i, j, verbose), key) == Prop(t, key)
  {
  }

  lemma PreparedDecodes<F>(n: Floats<F>, t: Json, i: nat, j: nat, verbose: bool)
    requires t.Obj? && Decodes(n, TicketTy(), t) && FitsInt64(8000000 + i * 100 + j)
    ensures Decodes(n, TicketTy(), Prepared(t, i, j, verbose))
  {
    hide Decodes, TicketTy;
    IsStruct();
    IdField();
    IntRoundTrip(8000000 + i * 100 + j);
    var tys, p := TicketTy().fields, Prepared(t, i, j, verbose);
    forall k | k in p.fields && k in tys ensures Decodes(n, tys[k], p.fields[k]) {
      if k == "id" {
        IdDecodes(n, p.fields[k]);
      } else {
        StructDecodes(n, tys, t, k);
      }
    }
    DecodesStruct(n, tys, p);
  }

  lemma IdField()
    ensures "id" in TicketTy().fields && TicketTy().fields["id"] == TInt
  {
    hide AnswerCollectionTy;
  }

  lemma IdDecodes<F>(n: Floats<F>, j: Json)
    requires j.Num? && ParseInt64(j.text).Some?
    ensures Decodes(n, TInt, j)
  {
  }

  lemma StructDecodes<F>(n: Floats<F>, tys: map<string, Ty>, j: Json, k: string)
    requires Decodes(n, TStruct(tys), j) && j.Obj? && k in j.fields && k in tys
    ensures Decodes(n, tys[k], j.fields[k])
  {
  }

  lemma DecodesStruct<F>(n: Floats<F>, tys: map<string, Ty>, j: Json)
    requires j.Obj? && forall k | k in j.fields && k in tys :: Decodes(n, tys[k], j.fields[k])
    ensures Decodes(n, TStruct(tys), j)
  {
  }

  lemma ElemDecodes<F>(n: Floats<F>, u: Ty, j: Json, i: nat)
    requires Decodes(n, TSlice(u), j) && i < |ItemsOf(j)|
    ensures Decodes(n, u, ItemsOf(j)[i])
  {
  }

  // ---- one order ----

  ghost predicate IdsFit(orders: seq<Json>) {
    forall i: nat, j: nat | i < |orders| && j < |TicketItems(orders[i])| :: IdFits(i, j)
  }

  /** The new ticket number still fits the port's integer field. */
  predicate IdFits(i: nat, j: nat) {
    FitsInt64(8000000 + i * 100 + j)
  }

  lemma TicketsScrubbed<F>(n: Floats<F>, py: Py, o: Json, i: nat, before: nat)
    requires OrderScrubs(py, o, i, before) && Decodes(n, TSlice(TicketTy()), Prop(o, "tickets"))
    requires forall j: nat | j < |TicketItems(o)| :: IdFits(i, j)
    ensures Decodes(n, TSlice(TicketTy()), ScrubTickets(py, o, i, before))
    ensures var a, b := TicketItems(o), ItemsOf(ScrubTickets(py, o, i, before));
      |a| == |b| && forall j | 0 <= j < |a| :: SameTicket(ReadTicket(n, a[j]), ReadTicket(n, b[j]))
  {
    hide TicketTy, Scrub, Prepared, ReadTicket, Prop, Scrubs;
    var a := TicketItems(o);
    if a != [] {
      forall j | 0 <= j < |a|
        ensures Decodes(n, TicketTy(), ScrubTicket(py, a[j], i, j, Verbose(before, j)))
        ensures SameTicket(ReadTicket(n, a[j]), ReadTicket(n, ScrubTicket(py, a[j], i, j, Verbose(before, j))))
      {
        assert TicketScrubs(py, a[j], i, j, Verbose(before, j)) && IdFits(i, j);
        ElemDecodes(n, TicketTy(), Prop(o, "tickets"), j);
        PreparedDecodes(n, a[j], i, j, Verbose(before, j));
        TicketSafe();
        ScrubDecodes(n, py, TicketTy(), Prepared(a[j], i, j, Verbose(before, j)), Attendee(py, i, j));
        TicketPrepared(n, a[j], i, j, Verbose(before, j));
        TicketScrubbed(n, py, Prepared(a[j], i, j, Verbose(before, j)), Attendee(py, i, j));
      }
    }
  }

  lemma OrderDecodes<F>(n: Floats<F>, py: Py, o: Json, i: nat, before: nat)
    requires OrderScrubs(py, o, i, before) && Decodes(n, OrderTy(), o)
    requires forall j: nat | j < |TicketItems(o)| :: IdFits(i, j)
    ensures Decodes(n, OrderTy(), ScrubOrder(py, o, i, before))
  {
    hide Decodes, OrderTy, TicketTy, ScrubTickets;
    var out := ScrubOrder(py, o, i, before);
    IsStruct();
    OrderFields();
    var tys := OrderTy().fields;
    DecodedField(n, tys, o, "tickets");
    TicketsScrubbed(n, py, o, i, before);
    forall k | k in out.fields && k in tys ensures Decodes(n, tys[k], out.fields[k]) {
      OrderFieldDecodes(n, py, tys, o, i, before, k);
    }
    DecodesStruct(n, tys, out);
  }

  lemma OrderFieldDecodes<F>(n: Floats<F>, py: Py, tys: map<string, Ty>, o: Json, i: nat, before: nat, k: string)
    requires OrderScrubs(py, o, i, before) && tys == OrderTy().fields && Decodes(n, TStruct(tys), o)
    requires k in ScrubOrder(py, o, i, before).fields && k in tys
    requires o.Obj? && "tickets" in tys && tys["tickets"] == TSlice(TicketTy())
    requires Decodes(n, tys["tickets"], ScrubTickets(py, o, i, before))
    ensures Decodes(n, tys[k], ScrubOrder(py, o, i, before).fields[k])
  {
    hide Decodes, OrderTy, TicketTy, ScrubTickets, Scrub, Scrubs, OrderScrubs, FakeUuidOf;
    if k == "order_id" {
      OrderStrings();
      StringDecodes(n, OrderId(py, i));
    } else {
      StructDecodes(n, tys, o, k);
      if k == "uuid" {
        OrderStrings();
        UuidDecodes(n, py, o.fields[k]);
      } else if k in OrderKeys() && k != "tickets" {
        OrderKeysSafe(k);
        ScrubDecodes(n, py, tys[k], o.fields[k], Buyer(py, i));
      }
    }
  }

  lemma OrderKeeps(py: Py, o: Json, i: nat, before: nat, key: string)
    requires OrderScrubs(py, o, i, before) && key !in OrderKeys()
    ensures Prop(ScrubOrder(py, o, i, before), key) == Prop(o, key)
  {
    assert o.Obj?;
    hide OrderScrubs;
  }

  lemma OrderHeader<F>(n: Floats<F>, py: Py, o: Json, i: nat, before: nat)
    requires OrderScrubs(py, o, i, before)
    ensures var a, b := ReadOrder(n, o), ReadOrder(n, ScrubOrder(py, o, i, before));
      a.state == b.state && a.vatExempt == b.vatExempt && a.vatRate == b.vatRate
  {
    hide OrderScrubs, ScrubOrder, OrderKeys, Prop, ReadTicket;
    HeaderKeys();
    OrderKeeps(py, o, i, before, "state");
    OrderKeeps(py, o, i, before, "vat_exempt");
    OrderKeeps(py, o, i, before, "vat_rate");
  }

  lemma HeaderKeys()
    ensures "state" !in OrderKeys() && "vat_exempt" !in OrderKeys() && "vat_rate" !in OrderKeys()
  {
  }

  lemma OrderTickets(py: Py, o: Json, i: nat, before: nat)
    requires OrderScrubs(py, o, i, before)
    ensures TicketItems(ScrubOrder(py, o, i, before)) == ItemsOf(ScrubTickets(py, o, i, before))
  {
    hide OrderScrubs, Scrub, ScrubTicket;
  }

  lemma OrderScrubbed<F>(n: Floats<F>, py: Py, o: Json, i: nat, before: nat)
    requires OrderScrubs(py, o, i, before) && Decodes(n, OrderTy(), o)
    requires forall j: nat | j < |TicketItems(o)| :: IdFits(i, j)
    ensures SameOrder(ReadOrder(n, o), ReadOrder(n, ScrubOrder(py, o, i, before)))
  {
    hide Decodes, OrderTy, TicketTy, ReadTicket, SameTicket, ScrubTickets, OrderScrubs, ScrubOrder, Prop, TextOf,
         FlagOf, FloatOf;
    OrderHeader(n, py, o, i, before);
    IsStruct();
    OrderFields();
    DecodedField(n, OrderTy().fields, o, "tickets");
    TicketsScrubbed(n, py, o, i, before);
    OrderTickets(py, o, i, before);
  }

  lemma OrderStrings()
    ensures var m := OrderTy().fields;
      "order_id" in m && m["order_id"] == TString && "uuid" in m && m["uuid"] == TString
  {
    hide AddressTy, OrderLineTy, TicketTy;
  }

  lemma StringDecodes<F>(n: Floats<F>, j: Json)
    ensures j.Str? ==> Decodes(n, TString, j)
  {
  }

  lemma UuidDecodes<F>(n: Floats<F>, py: Py, j: Json)
    requires Decodes(n, TString, j)
    ensures Decodes(n, TString, FakeUuidOf(py, j))
  {
    hide FakeUuid;
  }

  lemma OrderKeysSafe(k: string)
    requires k in OrderTy().fields && k in OrderKeys() - {"tickets"}
    ensures ScrubSafe(OrderTy().fields[k])
  {
    hide AddressTy, OrderLineTy, TicketTy;
    AddressSafe();
    OrderLineSafe();
  }

  // ---- the payload ----

  lemma DataOrders(py: Py, data: Json)
    requires DataScrubs(py, data)
    ensures var a, b := OrderItems(data), OrderItems(ScrubData(py, data));
      |a| == |b| && forall i | 0 <= i < |a| ::
        OrderScrubs(py, a[i], i, TicketsBefore(a, i)) && b[i] == ScrubOrder(py, a[i], i, TicketsBefore(a, i))
  {
    hide OrderScrubs, ScrubOrder;
  }

  lemma DataDecodes<F>(n: Floats<F>, py: Py, data: Json)
    requires DataScrubs(py, data) && Decodes(n, OrdersTy(), data) && IdsFit(OrderItems(data))
    ensures Decodes(n, OrdersTy(), ScrubData(py, data))
    ensures SameOrders(ReadOrders(n, data).orders, ReadOrders(n, ScrubData(py, data)).orders)
  {
    hide Decodes, OrdersTy, OrderTy, OrderScrubs, ScrubOrder, ReadOrder, SameOrder, FakeUuidOf;
    IsStruct();
    OrdersFields();
    var tys, out := OrdersTy().fields, ScrubData(py, data);
    var orders := OrderItems(data);
    DataOrders(py, data);
    DecodedField(n, tys, data, "orders");
    DecodedField(n, tys, data, "uuid");
    forall i | 0 <= i < |orders|
      ensures Decodes(n, OrderTy(), ScrubOrder(py, orders[i], i, TicketsBefore(orders, i)))
      ensures SameOrder(ReadOrder(n, orders[i]), ReadOrder(n, ScrubOrder(py, orders[i], i, TicketsBefore(orders, i))))
    {
      ElemDecodes(n, OrderTy(), Prop(data, "orders"), i);
      OrderDecodes(n, py, orders[i], i, TicketsBefore(orders, i));
      OrderScrubbed(n, py, orders[i], i, TicketsBefore(orders, i));
    }
    OrdersKeys();
    UuidDecodes(n, py, Prop(data, "uuid"));
    SliceDecodes(n, OrderTy(), Prop(data, "orders"), OrderItems(out));
    DataFields(n, py, data, tys);
  }

  lemma OrdersKeys()
    ensures OrdersTy().fields.Keys == {"uuid", "orders"}
  {
    hide OrderTy;
  }

  lemma SliceDecodes<F>(n: Floats<F>, u: Ty, before: Json, items: seq<Json>)
    requires forall i | 0 <= i < |items| :: Decodes(n, u, items[i])
    ensures Decodes(n, TSlice(u), Arr(items))
  {
  }

  lemma DataFields<F>(n: Floats<F>, py: Py, data: Json, tys: map<string, Ty>)
    requires DataScrubs(py, data) && tys == OrdersTy().fields && tys.Keys == {"uuid", "orders"}
    requires Decodes(n, tys["orders"], Prop(data, "orders"))
    requires Decodes(n, tys["uuid"], FakeUuidOf(py, Prop(data, "uuid")))
    requires Decodes(n, tys["orders"], Arr(OrderItems(ScrubData(py, data))))
    ensures Decodes(n, TStruct(tys), ScrubData(py, data))
  {
    hide Decodes, OrdersTy, OrderScrubs, ScrubOrder, FakeUuidOf;
    DecodesStruct(n, tys, ScrubData(py, data));
  }

  // ---- orders the aggregation cannot tell apart give the same summary ----

  lemma SameLine<F>(ar: Arith<F>, opts: Options, a: Order<F>, b: Order<F>)
    requires SameOrder(a, b)
    ensures OrderLines(ar, opts, a) == OrderLines(ar, opts, b)
  {
    hide CleanName, MerchOf, TshirtOf, Regroup;
  }

  lemma {:induction false} SameSummary<F>(ar: Arith<F>, opts: Options, s: Summary<F>, t: Summary<F>,
                                          a: seq<Order<F>>, b: seq<Order<F>>)
    requires SameOrders(a, b) && t == s.(eventUuid := t.eventUuid)
    ensures PostOrders(ar, opts, t, b) == PostOrders(ar, opts, s, a).(eventUuid := t.eventUuid)
    decreases |a|
  {
    hide OrderLines, PostLines;
    if a != [] {
      var k := |a| - 1;
      SameSummary(ar, opts, s, t, a[..k], b[..k]);
      SameLine(ar, opts, a[k], b[k]);
      var s1, t1 := PostOrders(ar, opts, s, a[..k]), PostOrders(ar, opts, t, b[..k]);
      LinesIgnoreUuid(ar, CountOrder(s1, a[k].state), t1.eventUuid, OrderLines(ar, opts, a[k]));
    }
  }

  lemma {:induction false} LinesIgnoreUuid<F>(ar: Arith<F>, s: Summary<F>, uuid: string, lines: seq<Line<F>>)
    ensures PostLines(ar, s.(eventUuid := uuid), lines) == PostLines(ar, s, lines).(eventUuid := uuid)
    decreases |lines|
  {
    if lines != [] { LinesIgnoreUuid(ar, s, uuid, lines[..|lines| - 1]); }
  }

  /**
   Anonymising does not change the numbers. If the port can decode the real payload it can decode
   the fixture, and apart from the event id the two summaries are equal, for any arithmetic.
   */
  lemma AnonymizedSummary<F>(ar: Arith<F>, opts: Options, n: Floats<F>, py: Py, data: Json)
    requires Decodes(n, OrdersTy(), data) && DataScrubs(py, data) && IdsFit(OrderItems(data))
    ensures Decodes(n, OrdersTy(), ScrubData(py, data))
    ensures var live, fixture := OrdersOf(n, Decoded(n, OrdersTy(), data)),
                                 OrdersOf(n, Decoded(n, OrdersTy(), ScrubData(py, data)));
      && fixture.uuid == FakeUuid(py, live.uuid)
      && SummaryOf(ar, opts, fixture) == SummaryOf(ar, opts, live).(eventUuid := fixture.uuid)
  {
    hide Decodes, OrdersTy, DataScrubs, SameOrder, PostOrders, ReadOrder;
    DataDecodes(n, py, data);
    PayloadShown(n, data);
    PayloadShown(n, ScrubData(py, data));
    EventId(py, data);
    var live, fixture := ReadOrders(n, data), ReadOrders(n, ScrubData(py, data));
    SameSummary(ar, opts, Empty(live.uuid), Empty(fixture.uuid), live.orders, fixture.orders);
  }

  lemma EventId(py: Py, data: Json)
    requires DataScrubs(py, data)
    ensures TextOf(Prop(ScrubData(py, data), "uuid")) == FakeUuid(py, TextOf(Prop(data, "uuid")))
  {
    hide OrderScrubs, ScrubOrder;
    assert FakeUuid(py, "") == "";
  }
}
