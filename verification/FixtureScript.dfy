/**
 testdata/anonymize.py step by step: scrub rewrites a dict key by key while it reads that same
 dict, and main keeps a counter across orders. The methods compute `Scrub` and `ScrubData`, whatever
 order the keys come in, and stop with None exactly where Python would raise.
 */
module FixtureScript {
  import opened Wrappers
  import opened Strings
  import opened GoJson
  import opened Payload
  import opened Anonymizer
  import opened FixturePrivacy

  // ---- scrub ----

  predicate KeyScrubs(py: Py, node: map<string, Json>, key: string)
    requires key in node
  {
    if Replaced(py, key, node[key])
    then RoleOf(key).FreeText? ==> AnswerScrubs(Get(node, "variation"), Get(node, "question_heading"))
    else Scrubs(py, node[key])
  }

  function KeyScrubbed(py: Py, node: map<string, Json>, key: string, id: Identity): Json
    requires key in node
  {
    if Replaced(py, key, node[key]) then Replacement(py, node, key, node[key], id) else Scrub(py, node[key], id)
  }

  /** A dict with the keys in `todo` still as they were. */
  ghost predicate Halfway(py: Py, node: map<string, Json>, now: map<string, Json>, todo: set<string>, id: Identity) {
    && todo <= node.Keys == now.Keys
    && forall k | k in node :: now[k] == if k in todo then node[k] else KeyScrubbed(py, node, k, id)
  }

  /** A leaf stays the same leaf, and nothing becomes one. */
  predicate SameLeaf(a: Json, b: Json) {
    (a.Str? || b.Str?) ==> a == b
  }

  lemma HalfwayLeaf(py: Py, node: map<string, Json>, now: map<string, Json>, todo: set<string>, key: string,
      id: Identity)
    requires Halfway(py, node, now, todo, id) && RoleOf(key) == Plain
    ensures SameLeaf(Get(node, key), Get(now, key))
  {
    hide RoleOf, Replacement;
    assert key in node && key !in todo ==> now[key] == Scrub(py, node[key], id);
  }

  lemma LeafAnswers(v: Json, h: Json, w: Json, g: Json, id: Identity)
    requires SameLeaf(v, w) && SameLeaf(h, g)
    ensures AnswerScrubs(v, h) == AnswerScrubs(w, g) && AnswerText(v, h, id) == AnswerText(w, g, id)
  {
    hide Contains, ToLower;
  }

  lemma SameReplacement(py: Py, node: map<string, Json>, now: map<string, Json>, key: string, value: Json, id: Identity)
    requires AnswerText(Get(node, "variation"), Get(node, "question_heading"), id)
          == AnswerText(Get(now, "variation"), Get(now, "question_heading"), id)
    ensures Replacement(py, node, key, value, id) == Replacement(py, now, key, value, id)
  {
    hide RoleOf, Get, AnswerText, FakeUuid, FakeUuidOf, Truthy, Take, Upper;
  }

  /** The answer branch may read the dict half rewritten: the two keys it looks at hold the same strings. */
  lemma HalfwayReads(py: Py, node: map<string, Json>, now: map<string, Json>, todo: set<string>, key: string,
      id: Identity)
    requires Halfway(py, node, now, todo, id) && key in node
    ensures AnswerScrubs(Get(node, "variation"), Get(node, "question_heading"))
         == AnswerScrubs(Get(now, "variation"), Get(now, "question_heading"))
    ensures Replacement(py, node, key, node[key], id) == Replacement(py, now, key, node[key], id)
  {
    PlainAnswerKeys();
    HalfwayLeaf(py, node, now, todo, "variation", id);
    HalfwayLeaf(py, node, now, todo, "question_heading", id);
    hide RoleOf, Halfway, Get, AnswerText, AnswerScrubs, Replacement, SameLeaf;
    LeafAnswers(Get(node, "variation"), Get(node, "question_heading"),
                Get(now, "variation"), Get(now, "question_heading"), id);
    SameReplacement(py, node, now, key, node[key], id);
  }

  method ScrubNode(py: Py, node: Json, id: Identity) returns (out: Option<Json>)
    ensures out == if Scrubs(py, node) then Some(Scrub(py, node, id)) else None
    decreases node, 1
  {
    hide RoleOf, Replaced, Replacement, AnswerScrubs, Get;
    if node.Arr? {
      var items := [];
      for i := 0 to |node.items|
        invariant |items| == i
        invariant forall k | 0 <= k < i :: Scrubs(py, node.items[k]) && items[k] == Scrub(py, node.items[k], id)
      {
        var item := ScrubNode(py, node.items[i], id);
        if item.None? { return None; }
        items := items + [item.value];
      }
      assert items == Scrub(py, node, id).items;
      return Some(Arr(items));
    } else if node.Obj? {
      out := ScrubDict(py, node, id);
    } else {
      return Some(node);
    }
  }

  method ScrubDict(py: Py, node: Json, id: Identity) returns (out: Option<Json>)
    requires node.Obj?
    ensures out == if Scrubs(py, node) then Some(Scrub(py, node, id)) else None
    decreases node, 0
  {
    hide RoleOf, Replaced, Replacement, AnswerScrubs, Get;
    var now := node.fields;
    var todo := node.fields.Keys;
    while todo != {}
      invariant Halfway(py, node.fields, now, todo, id)
      invariant forall k | k in node.fields && k !in todo :: KeyScrubs(py, node.fields, k)
    {
      var key :| key in todo;
      HalfwayReads(py, node.fields, now, todo, key, id);
      if Replaced(py, key, now[key]) {
        if RoleOf(key).FreeText? && !AnswerScrubs(Get(now, "variation"), Get(now, "question_heading")) {
          return None;
        }
        now := now[key := Replacement(py, now, key, now[key], id)];
      } else {
        var value := ScrubNode(py, now[key], id);
        if value.None? { return None; }
        now := now[key := value.value];
      }
      todo := todo - {key};
    }
    assert now == Scrub(py, node, id).fields;
    return Some(Obj(now));
  }

  // ---- main ----

  /** The fields of an order that main rewrites besides its number and its tickets. */
  function MainKeys(): seq<string> {
    ["uuid", "address", "order_lines", "discount", "payment_method"]
  }

  lemma MainKeysAre()
    ensures forall k :: k in MainKeys() <==> k in OrderKeys() - {"order_id", "tickets"}
    ensures forall i, j | 0 <= i < j < |MainKeys()| :: MainKeys()[i] != MainKeys()[j]
  {
  }

  predicate FieldScrubs(py: Py, o: map<string, Json>, key: string)
    requires key in o
  {
    key == "uuid" || Scrubs(py, o[key])
  }

  function FieldScrubbed(py: Py, o: map<string, Json>, key: string, i: nat): Json
    requires key in o
  {
    if key == "uuid" then FakeUuidOf(py, o[key]) else Scrub(py, o[key], Buyer(py, i))
  }

  /** The order with its number replaced and the first n of the keys rewritten. */
  ghost predicate OrderHalfway(py: Py, o: map<string, Json>, now: map<string, Json>, n: nat, i: nat)
    requires n <= |MainKeys()|
  {
    && now.Keys == o.Keys + {"order_id"} && now["order_id"] == OrderId(py, i)
    && forall k | k in o && k != "order_id" ::
         now[k] == if k in MainKeys()[..n] then FieldScrubbed(py, o, k, i) else o[k]
  }

  method ScrubFields(py: Py, o: Json, i: nat) returns (out: Option<map<string, Json>>)
    requires o.Obj?
    ensures out.Some? <==> forall k | k in MainKeys() && k in o.fields :: FieldScrubs(py, o.fields, k)
    ensures out.Some? ==> OrderHalfway(py, o.fields, out.value, |MainKeys()|, i)
  {
    MainKeysAre();
    hide MainKeys, FakeUuidOf, Scrub, OrderId;
    assert "order_id" !in MainKeys();
    var keys := MainKeys();
    var now := o.fields["order_id" := OrderId(py, i)];
    for n := 0 to |keys|
      invariant OrderHalfway(py, o.fields, now, n, i)
      invariant forall k | k in keys[..n] && k in o.fields :: FieldScrubs(py, o.fields, k)
    {
      var key := keys[n];
      assert key in keys && key !in keys[..n];
      assert keys[..n + 1] == keys[..n] + [key];
      if key in now {
        if key == "uuid" {
          now := now[key := FakeUuidOf(py, now[key])];
        } else {
          var value := ScrubNode(py, now[key], Buyer(py, i));
          if value.None? {
            assert !FieldScrubs(py, o.fields, key);
            return None;
          }
          now := now[key := value.value];
        }
      }
    }
    assert keys[..|keys|] == keys;
    return Some(now);
  }

  function AtMostTwo(n: nat): nat {
    if n < 2 then n else 2
  }

  /** The tickets of one order; the counter says how many tickets of the payload kept the repeated arrays. */
  method ScrubTicketList(py: Py, tickets: seq<Json>, i: nat, ghost before: nat, kept0: nat)
    returns (out: Option<seq<Json>>, kept: nat)
    requires kept0 == AtMostTwo(before)
    ensures out.Some? <==> forall j | 0 <= j < |tickets| :: TicketScrubs(py, tickets[j], i, j, Verbose(before, j))
    ensures out.Some? ==> |out.value| == |tickets| && kept == AtMostTwo(before + |tickets|)
    ensures out.Some? ==> forall j | 0 <= j < |tickets| ::
      tickets[j].Obj? && out.value[j] == ScrubTicket(py, tickets[j], i, j, Verbose(before, j))
  {
    hide Scrub, Scrubs, TicketId;
    kept := kept0;
    var done := [];
    for j := 0 to |tickets|
      invariant kept == AtMostTwo(before + j) && |done| == j
      invariant forall l | 0 <= l < j :: TicketScrubs(py, tickets[l], i, l, Verbose(before, l))
      invariant forall l | 0 <= l < j ::
        tickets[l].Obj? && done[l] == ScrubTicket(py, tickets[l], i, l, Verbose(before, l))
    {
      var ticket := tickets[j];
      if !ticket.Obj? {
        assert !TicketScrubs(py, tickets[j], i, j, Verbose(before, j));
        return None, kept;
      }
      var fields := ticket.fields["id" := TicketId(i, j)];
      if kept >= 2 {
        fields := fields - {"answers"};
        fields := fields - {"questions"};
      } else {
        kept := kept + 1;
      }
      assert Obj(fields) == Prepared(ticket, i, j, Verbose(before, j)) by {
        TwoPops(ticket.fields["id" := TicketId(i, j)]);
      }
      var item := ScrubNode(py, Obj(fields), Attendee(py, i, j));
      if item.None? {
        assert !TicketScrubs(py, tickets[j], i, j, Verbose(before, j));
        return None, kept;
      }
      done := done + [item.value];
    }
    return Some(done), kept;
  }

  lemma TwoPops(f: map<string, Json>)
    ensures f - {"answers"} - {"questions"} == f - {"answers", "questions"}
  {
  }

  method ScrubOneOrder(py: Py, order: Json, i: nat, ghost before: nat, kept0: nat) returns (out: Option<Json>,
      kept: nat)
    requires kept0 == AtMostTwo(before)
    ensures out == if OrderScrubs(py, order, i, before) then Some(ScrubOrder(py, order, i, before)) else None
    ensures out.Some? ==> kept == AtMostTwo(before + |TicketItems(order)|)
  {
    kept := kept0;
    if !order.Obj? { return None, kept; }
    var fields := ScrubFields(py, order, i);
    OrderParts(py, order, i, before);
    if fields.None? { return None, kept; }
    hide OrderScrubs;
    if !Iterable(py, Prop(order, "tickets")) { return None, kept; }
    var tickets := TicketItems(order);
    var done;
    done, kept := ScrubTicketList(py, tickets, i, before, kept);
    if done.None? { return None, kept; }
    var now := if tickets == [] then fields.value else fields.value["tickets" := Arr(done.value)];
    OrderResult(py, order, i, before, fields.value, now, done.value);
    return Some(Obj(now)), kept;
  }

  lemma OrderParts(py: Py, o: Json, i: nat, before: nat)
    requires o.Obj?
    ensures OrderScrubs(py, o, i, before) <==>
      && (forall k | k in MainKeys() && k in o.fields :: FieldScrubs(py, o.fields, k))
      && Iterable(py, Prop(o, "tickets"))
      && (forall j | 0 <= j < |TicketItems(o)| :: TicketScrubs(py, TicketItems(o)[j], i, j, Verbose(before, j)))
  {
    hide Iterable, TicketScrubs, TicketItems;
    assert Scrubs(py, Null);
    hide Scrubs;
    var keys := MainKeys();
    assert keys[1] == "address" && keys[2] == "order_lines" && keys[3] == "discount" && keys[4] == "payment_method";
  }

  lemma TicketsResult(py: Py, o: Json, i: nat, before: nat, done: seq<Json>)
    requires OrderScrubs(py, o, i, before) && |done| == |TicketItems(o)| && TicketItems(o) != []
    requires forall j | 0 <= j < |done| ::
      TicketItems(o)[j].Obj? && done[j] == ScrubTicket(py, TicketItems(o)[j], i, j, Verbose(before, j))
    ensures ScrubTickets(py, o, i, before) == Arr(done)
  {
    hide Prop, TicketItems, OrderScrubs, ScrubTicket, Verbose;
  }

  lemma OrderIsObj(py: Py, o: Json, i: nat, before: nat)
    requires OrderScrubs(py, o, i, before)
    ensures ScrubOrder(py, o, i, before).Obj?
  {
    hide OrderScrubs, Scrub, FakeUuidOf, ScrubTickets;
  }

  lemma OrderResult(py: Py, o: Json, i: nat, before: nat, fields: map<string, Json>, now: map<string, Json>,
      done: seq<Json>)
    requires o.Obj? && OrderScrubs(py, o, i, before) && OrderHalfway(py, o.fields, fields, |MainKeys()|, i)
    requires |done| == |TicketItems(o)|
    requires forall j | 0 <= j < |done| ::
      TicketItems(o)[j].Obj? && done[j] == ScrubTicket(py, TicketItems(o)[j], i, j, Verbose(before, j))
    requires now == if TicketItems(o) == [] then fields else fields["tickets" := Arr(done)]
    ensures Obj(now) == ScrubOrder(py, o, i, before)
  {
    hide OrderScrubs, Scrub, ScrubTickets, ScrubTicket, TicketItems, Prop, ScrubOrder, OrderRest, OrderKeys,
         MainKeys, OrderId, FieldScrubbed;
    TicketsIn(o);
    RestOfResult(py, o, i, before);
    if TicketItems(o) != [] { TicketsResult(py, o, i, before, done); }
    assert ScrubOrder(py, o, i, before).Obj? by { OrderIsObj(py, o, i, before); }
    var x := ScrubOrder(py, o, i, before).fields;
    assert now.Keys == x.Keys;
    forall k | k in x ensures now[k] == x[k] { OrderKeyResult(py, o, i, before, fields, now, k); }
  }

  lemma TicketsIn(o: Json)
    ensures TicketItems(o) != [] ==> o.Obj? && "tickets" in o.fields
  {
  }

  lemma OrderKeyResult(py: Py, o: Json, i: nat, before: nat, fields: map<string, Json>, now: map<string, Json>,
      k: string)
    requires OrderScrubs(py, o, i, before) && OrderHalfway(py, o.fields, fields, |MainKeys()|, i)
    requires now == if TicketItems(o) == [] then fields else fields["tickets" := ScrubTickets(py, o, i, before)]
    requires k in ScrubOrder(py, o, i, before).fields
    ensures k in now && now[k] == ScrubOrder(py, o, i, before).fields[k]
  {
    MainKeysAre();
    assert MainKeys()[..|MainKeys()|] == MainKeys();
    assert o.Obj?;
    hide MainKeys, OrderScrubs, Scrub, FakeUuidOf, OrderId, ScrubTicket;
  }

  /** The first |done| orders scrub, and this is what they become. */
  ghost predicate OrdersDone(py: Py, orders: seq<Json>, done: seq<Json>) {
    |done| <= |orders| &&
    forall k | 0 <= k < |done| ::
      OrderScrubs(py, orders[k], k, TicketsBefore(orders, k)) &&
      done[k] == ScrubOrder(py, orders[k], k, TicketsBefore(orders, k))
  }

  lemma OneMoreOrder(py: Py, orders: seq<Json>, done: seq<Json>)
    requires OrdersDone(py, orders, done) && |done| < |orders|
    requires OrderScrubs(py, orders[|done|], |done|, TicketsBefore(orders, |done|))
    ensures OrdersDone(py, orders, done + [ScrubOrder(py, orders[|done|], |done|, TicketsBefore(orders, |done|))])
  {
    hide OrderScrubs, ScrubOrder, TicketsBefore;
  }

  method ScrubOrderList(py: Py, orders: seq<Json>) returns (out: Option<seq<Json>>)
    ensures out.Some? <==> forall i | 0 <= i < |orders| :: OrderScrubs(py, orders[i], i, TicketsBefore(orders, i))
    ensures out.Some? ==> OrdersAre(py, orders, out.value)
  {
    hide OrderScrubs, ScrubOrder, TicketItems;
    var keptVerbose := 0;
    var done := [];
    for i := 0 to |orders|
      invariant keptVerbose == AtMostTwo(TicketsBefore(orders, i)) && |done| == i && OrdersDone(py, orders, done)
    {
      var order;
      order, keptVerbose := ScrubOneOrder(py, orders[i], i, TicketsBefore(orders, i), keptVerbose);
      if order.None? {
        assert !OrderScrubs(py, orders[i], i, TicketsBefore(orders, i));
        return None;
      }
      OneMoreOrder(py, orders, done);
      done := done + [order.value];
    }
    return Some(done);
  }

  /** The whole script: the fixture, or None where Python raises. */
  method Anonymise(py: Py, data: Json) returns (out: Option<Json>)
    ensures out == if DataScrubs(py, data) then Some(ScrubData(py, data)) else None
  {
    if !data.Obj? { return None; }
    var fields := data.fields["uuid" := FakeUuidOf(py, Prop(data, "uuid"))];
    if "orders" in fields && !fields["orders"].Arr? && !EmptyIterable(fields["orders"]) { return None; }
    var orders := OrderItems(data);
    var done := ScrubOrderList(py, orders);
    if done.None? { return None; }
    if orders != [] { fields := fields["orders" := Arr(done.value)]; }
    DataFromParts(py, data, done.value, fields);
    return Some(Obj(fields));
  }

  lemma DataFromParts(py: Py, data: Json, done: seq<Json>, fields: map<string, Json>)
    requires DataScrubs(py, data) && OrdersAre(py, OrderItems(data), done)
    requires fields == var f := data.fields["uuid" := FakeUuidOf(py, Prop(data, "uuid"))];
      if OrderItems(data) != [] then f["orders" := Arr(done)] else f
    ensures ScrubData(py, data) == Obj(fields)
  {
    DataResult(py, data);
    var x := ScrubData(py, data).fields;
    hide DataScrubs, ScrubData, FakeUuidOf, OrderScrubs, ScrubOrder;
    if OrderItems(data) != [] { assert x["orders"].items == done; }
    forall k | k in x ensures k in fields && x[k] == fields[k] {
      if k != "uuid" && k != "orders" { assert x[k] == (x - {"uuid", "orders"})[k] == data.fields[k]; }
    }
    assert x == fields;
  }
}
