/**
 Identifiers in the whole fixture, from the payload's root: which ones `main` leaves standing, which
 of those it rewrites, and whether two of them still agree.

 The walk starts at a ticket and at four fields of an order. An identifier beside them, under any key
 other than `uuid`, keeps its real value.
 */
module FixtureIds {
  import opened Strings
  import opened Decimals
  import opened GoJson
  import opened Payload
  import opened Anonymizer
  import opened FixtureFidelity
  import opened FixturePrivacy

  /** A string under a key that names an identifier. */
  predicate IsIdentifier(j: Json, p: seq<Step>) {
    && p != [] && p[|p| - 1].Key? && Contains(p[|p| - 1].key, "uuid")
    && Has(j, p) && At(j, p).Str?
  }

  lemma IdentifierKey(key: string)
    ensures RoleOf(key).Identifier? <==> Contains(key, "uuid")
  {
    hide Contains;
  }

  lemma FieldBelow(j: Json, p: seq<Step>)
    requires IsIdentifier(j, p) && |p| > 1 && p[0].Key?
    ensures j.Obj? && p[0].key in j.fields
    ensures IsIdentifier(j.fields[p[0].key], p[1..]) && At(j, p) == At(j.fields[p[0].key], p[1..])
  {
    hide RoleOf, Contains;
  }

  lemma HasField(j: Json, p: seq<Step>)
    requires p != [] && p[0].Key? && j.Obj? && p[0].key in j.fields
    ensures Has(j, p) <==> Has(j.fields[p[0].key], p[1..])
    ensures Has(j, p) ==> At(j, p) == At(j.fields[p[0].key], p[1..])
  {
  }

  lemma HasElement(j: Json, p: seq<Step>)
    requires |p| > 1 && p[0].Key? && p[1].Item? && j.Obj? && p[0].key in j.fields
    requires j.fields[p[0].key].Arr? && p[1].i < |j.fields[p[0].key].items|
    ensures var e := j.fields[p[0].key].items[p[1].i];
      && (Has(j, p) <==> Has(e, p[2..]))
      && (Has(j, p) ==> At(j, p) == At(e, p[2..]))
  {
    assert p[1..][1..] == p[2..];
  }

  lemma LeafHasNoPath(j: Json, p: seq<Step>)
    requires p != [] && !j.Arr? && !j.Obj?
    ensures !Has(j, p)
  {
  }

  lemma ListBelow(j: Json, p: seq<Step>)
    requires |p| > 1 && Has(j, p) && p[0].Key? && p[1].Item?
    ensures j.Obj? && p[0].key in j.fields && j.fields[p[0].key].Arr?
    ensures var items := j.fields[p[0].key].items;
      && p[1].i < |items| && Has(items[p[1].i], p[2..]) && At(j, p) == At(items[p[1].i], p[2..])
  {
    assert p[1..][1..] == p[2..];
  }

  /** An identifier below a key is below an element of its list, unless the key holds an object. */
  lemma IdentifierInList(j: Json, p: seq<Step>)
    requires IsIdentifier(j, p) && |p| > 1 && p[0].Key?
    ensures j.Obj? && p[0].key in j.fields && (j.fields[p[0].key].Arr? || j.fields[p[0].key].Obj?)
    ensures j.fields[p[0].key] != Arr([]) && j.fields[p[0].key] != Obj(map[])
    ensures j.fields[p[0].key].Arr? ==>
      |p| > 2 && p[1].Item? && p[1].i < |j.fields[p[0].key].items| &&
      IsIdentifier(j.fields[p[0].key].items[p[1].i], p[2..]) &&
      At(j, p) == At(j.fields[p[0].key].items[p[1].i], p[2..])
  {
    FieldBelow(j, p);
    hide RoleOf, Contains;
    if j.fields[p[0].key].Arr? { ListBelow(j, p); }
  }

  // ---- below a scrubbed value ----

  /** Nothing stands below a value that was replaced as a whole. */
  lemma ReplacementIsLeaf(py: Py, fields: map<string, Json>, k: string, id: Identity, q: seq<Step>)
    requires k in fields && Replaced(py, k, fields[k]) && q != []
    ensures !Has(Replacement(py, fields, k, fields[k], id), q)
  {
    hide RoleOf, Contains, FakeUuid, AnswerText, Get;
  }

  /** An identifier is still there after scrubbing exactly when nothing above it is replaced. */
  lemma {:induction false} IdentifierStays(py: Py, j: Json, q: seq<Step>, id: Identity)
    requires Scrubs(py, j) && IsIdentifier(j, q)
    ensures Has(Scrub(py, j, id), q) <==> EndsInId(py, j, q)
    decreases |q|
  {
    if q[0].Key? { IdentifierKey(q[0].key); }
    hide RoleOf, Contains, Replacement, AnswerScrubs, Get;
    match q[0] {
      case Item(i) =>
        if |q| > 1 { IdentifierStays(py, j.items[i], q[1..], id); }
      case Key(k) =>
        if Replaced(py, k, j.fields[k]) {
          assert Scrub(py, j, id).fields[k] == Replacement(py, j.fields, k, j.fields[k], id);
          if |q| > 1 { ReplacementIsLeaf(py, j.fields, k, id, q[1..]); }
        } else {
          assert Scrub(py, j, id).fields[k] == Scrub(py, j.fields[k], id);
          if |q| > 1 {
            IdentifierStays(py, j.fields[k], q[1..], id);
          }
        }
    }
  }

  /** The identifiers of a value that is scrubbed: which are left, and what they become. */
  lemma ScrubbedIdentifier(py: Py, j: Json, q: seq<Step>, id: Identity)
    requires Scrubs(py, j) && IsIdentifier(j, q)
    ensures Has(Scrub(py, j, id), q) <==> EndsInId(py, j, q)
    ensures Has(Scrub(py, j, id), q) ==> At(Scrub(py, j, id), q) == Str(FakeUuid(py, At(j, q).s))
  {
    IdentifierStays(py, j, q, id);
    hide RoleOf, Contains, Scrub, Scrubs, FakeUuid;
    if EndsInId(py, j, q) { IdentifierBecomes(py, j, q, id); }
  }

  // ---- tickets ----

  predicate TicketKeeps(py: Py, t: Json, verbose: bool, q: seq<Step>)
    requires q != [] && Has(t, q)
  {
    && q[0] != Key("id") && (verbose || q[0] !in {Key("answers"), Key("questions")})
    && EndsInId(py, t, q)
  }

  lemma IdIsPlain()
    ensures RoleOf("id") == RoleOf("order_id") == Plain
  {
    hide Contains;
    NoUuid("id");
    NoUuid("order_id");
  }

  /** Renumbering a ticket and popping its arrays takes away what stood under those keys, and nothing else. */
  lemma PreparedIdentifier(py: Py, t: Json, i: nat, j: nat, verbose: bool, q: seq<Step>)
    requires t.Obj? && IsIdentifier(t, q)
    ensures var u := Prepared(t, i, j, verbose);
      && (Has(u, q) <==> q[0] != Key("id") && (verbose || q[0] !in {Key("answers"), Key("questions")}))
      && (Has(u, q) ==> At(u, q) == At(t, q) && IsIdentifier(u, q) && EndsInId(py, u, q) == EndsInId(py, t, q))
  {
    IdIsPlain();
    IdentifierKey("id");
    hide RoleOf, Contains, NatText, Replaced;
  }

  /** Scrubbing adds no path. */
  lemma {:induction false} ScrubAddsNoPath(py: Py, j: Json, q: seq<Step>, id: Identity)
    requires Has(Scrub(py, j, id), q)
    ensures Has(j, q)
    decreases |q|
  {
    hide RoleOf, Contains, Replacement, Get;
    if q != [] {
      match q[0]
      case Item(i) => ScrubAddsNoPath(py, j.items[i], q[1..], id);
      case Key(k) =>
        if !Replaced(py, k, j.fields[k]) {
          ScrubAddsNoPath(py, j.fields[k], q[1..], id);
        } else if |q| > 1 {
          assert Has(Replacement(py, j.fields, k, j.fields[k], id), q[1..]);
          ReplacementIsLeaf(py, j.fields, k, id, q[1..]);
        }
    }
  }

  lemma TicketIdentifier(py: Py, t: Json, i: nat, j: nat, verbose: bool, q: seq<Step>)
    requires TicketScrubs(py, t, i, j, verbose) && IsIdentifier(t, q)
    ensures var u := ScrubTicket(py, t, i, j, verbose);
      && (Has(u, q) <==> TicketKeeps(py, t, verbose, q))
      && (Has(u, q) ==> At(u, q) == Str(FakeUuid(py, At(t, q).s)))
  {
    PreparedIdentifier(py, t, i, j, verbose, q);
    var u := Prepared(t, i, j, verbose);
    hide RoleOf, Contains, FakeUuid, EndsInId, Scrubs, Prepared, Scrub;
    if Has(Scrub(py, u, Attendee(py, i, j)), q) { ScrubAddsNoPath(py, u, q, Attendee(py, i, j)); }
    if Has(u, q) {
      ScrubbedIdentifier(py, u, q, Attendee(py, i, j));
    }
  }

  // ---- orders ----

  /** The path from an order through the parts main rewrites. */
  predicate OrderRuns(q: seq<Step>) {
    q == [Key("uuid")] ||
    (q != [] && q[0].Key? && q[0].key in ScrubbedKeys() + {"tickets"})
  }

  predicate OrderKeeps(py: Py, o: Json, before: nat, q: seq<Step>)
    requires q != [] && Has(o, q)
  {
    match q[0]
    case Item(_) => false
    case Key(k) =>
      if k == "order_id" then false
      else if k == "tickets" then
        |q| > 2 && q[1].Item? &&
        (ListBelow(o, q);
         TicketKeeps(py, TicketItems(o)[q[1].i], Verbose(before, q[1].i), q[2..]))
      else k in ScrubbedKeys() ==> EndsInId(py, o.fields[k], q[1..])
  }

  ghost predicate OrderShowsId(py: Py, o: Json, i: nat, before: nat, q: seq<Step>)
    requires OrderScrubs(py, o, i, before) && IsIdentifier(o, q)
  {
    var u := ScrubOrder(py, o, i, before);
    && (Has(u, q) <==> OrderKeeps(py, o, before, q))
    && (Has(u, q) ==> At(u, q) == if OrderRuns(q) then Str(FakeUuid(py, At(o, q).s)) else At(o, q))
  }

  /** Below an order, an identifier's own key is not one of the keys main goes through. */
  lemma WalkedKeys(q: seq<Step>)
    requires |q| == 1 && q[0].Key? && Contains(q[0].key, "uuid")
    ensures var k := q[0].key;
      k !in ScrubbedKeys() && k != "tickets" && k != "order_id" && k != "orders" && k != "id"
  {
    hide RoleOf, Contains, ScrubbedKeys;
    WalkedKeysPlain();
    IdIsPlain();
    IdentifierKey(q[0].key);
  }

  lemma ScrubbedFieldShows(py: Py, o: Json, i: nat, before: nat, q: seq<Step>)
    requires OrderScrubs(py, o, i, before) && IsIdentifier(o, q)
    requires q[0].Key? && q[0].key in ScrubbedKeys()
    ensures OrderShowsId(py, o, i, before, q)
  {
    hide RoleOf, Contains, EndsInId, Scrub, Scrubs, FakeUuid, TicketScrubs, ScrubOrder, TicketKeeps, Has, At;
    var k := q[0].key;
    if |q| == 1 { WalkedKeys(q); }
    FieldBelow(o, q);
    ScrubbedField(py, o, i, before, k);
    HasField(ScrubOrder(py, o, i, before), q);
    hide OrderScrubs, IsIdentifier;
    ScrubbedIdentifier(py, o.fields[k], q[1..], Buyer(py, i));
  }

  lemma ScrubbedField(py: Py, o: Json, i: nat, before: nat, k: string)
    requires OrderScrubs(py, o, i, before) && k in o.fields && k in ScrubbedKeys()
    ensures Scrubs(py, o.fields[k]) && ScrubOrder(py, o, i, before).Obj? && k in ScrubOrder(py, o, i, before).fields
    ensures ScrubOrder(py, o, i, before).fields[k] == Scrub(py, o.fields[k], Buyer(py, i))
  {
    hide Scrub, Scrubs, FakeUuid, TicketScrubs, ScrubTickets;
  }

  lemma TicketShows(py: Py, o: Json, i: nat, before: nat, q: seq<Step>)
    requires OrderScrubs(py, o, i, before) && IsIdentifier(o, q) && q[0] == Key("tickets")
    ensures OrderShowsId(py, o, i, before, q)
  {
    if |q| == 1 { WalkedKeys(q); }
    IdentifierInList(o, q);
    var j := q[1].i;
    ScrubbedTicket(py, o, i, before, j);
    HasElement(ScrubOrder(py, o, i, before), q);
    hide RoleOf, Contains, FakeUuid, TicketKeeps, ScrubTicket, TicketScrubs, OrderScrubs, ScrubOrder, IsIdentifier, Has,
         At;
    TicketIdentifier(py, TicketItems(o)[j], i, j, Verbose(before, j), q[2..]);
  }

  lemma ScrubbedTicket(py: Py, o: Json, i: nat, before: nat, j: nat)
    requires OrderScrubs(py, o, i, before) && "tickets" in o.fields && Truthy(py, o.fields["tickets"])
    requires o.fields["tickets"].Arr? ==> j < |o.fields["tickets"].items|
    ensures o.fields["tickets"].Arr? && TicketItems(o) == o.fields["tickets"].items
    ensures TicketScrubs(py, TicketItems(o)[j], i, j, Verbose(before, j))
    ensures "tickets" in ScrubOrder(py, o, i, before).fields
    ensures var out := ScrubOrder(py, o, i, before).fields["tickets"];
      && out.Arr? && |out.items| == |TicketItems(o)|
      && out.items[j] == ScrubTicket(py, TicketItems(o)[j], i, j, Verbose(before, j))
  {
    hide Scrub, Scrubs, FakeUuid, TicketScrubs, ScrubTicket, RoleOf, Contains;
  }

  lemma OtherFieldShows(py: Py, o: Json, i: nat, before: nat, q: seq<Step>)
    requires OrderScrubs(py, o, i, before) && IsIdentifier(o, q)
    requires q[0].Key? && q[0].key !in ScrubbedKeys() + {"tickets"}
    ensures OrderShowsId(py, o, i, before, q)
  {
    if |q| == 1 { WalkedKeys(q); }
    if |q| > 1 { FieldBelow(o, q); }
    var u := ScrubOrder(py, o, i, before);
    OtherField(py, o, i, before, q[0].key);
    HasField(o, q);
    HasField(u, q);
    if |q| > 1 && q[0].key == "order_id" { LeafHasNoPath(u.fields["order_id"], q[1..]); }
    if |q| > 1 && q[0].key == "uuid" { IdentifierInList(o, q); }
    hide RoleOf, Contains, FakeUuid, OrderScrubs, ScrubOrder, EndsInId, TicketKeeps, Has, At;
    if |q| == 1 { assert q == [q[0]]; }
  }

  lemma OtherField(py: Py, o: Json, i: nat, before: nat, k: string)
    requires OrderScrubs(py, o, i, before) && k in o.fields && k !in ScrubbedKeys() + {"tickets"}
    ensures k in ScrubOrder(py, o, i, before).fields
    ensures ScrubOrder(py, o, i, before).fields[k] ==
      if k == "order_id" then OrderId(py, i)
      else if k == "uuid" then FakeUuidOf(py, o.fields[k])
      else o.fields[k]
  {
    hide Scrub, Scrubs, FakeUuid, TicketScrubs, ScrubTickets;
  }

  lemma OrderIdentifier(py: Py, o: Json, i: nat, before: nat, q: seq<Step>)
    requires OrderScrubs(py, o, i, before) && IsIdentifier(o, q)
    ensures OrderShowsId(py, o, i, before, q)
  {
    hide OrderShowsId, RoleOf, Contains;
    if q[0].key in ScrubbedKeys() {
      ScrubbedFieldShows(py, o, i, before, q);
    } else if q[0] == Key("tickets") {
      TicketShows(py, o, i, before, q);
    } else {
      OtherFieldShows(py, o, i, before, q);
    }
  }

  // ---- the payload ----

  /**
   The places whose identifiers main rewrites: the payload's and an order's own `uuid`, and everything
   below an order's address, lines, discount, payment method and tickets.
   */
  predicate RunsThrough(p: seq<Step>) {
    p == [Key("uuid")] || (|p| > 2 && p[0] == Key("orders") && OrderRuns(p[2..]))
  }

  /** The fixture still has the identifier: nothing on the way to it is replaced, renumbered or dropped. */
  predicate Kept(py: Py, data: Json, p: seq<Step>)
    requires p != [] && Has(data, p)
  {
    |p| > 2 && p[0] == Key("orders") && p[1].Item? ==>
      (ListBelow(data, p);
       OrderKeeps(py, OrderItems(data)[p[1].i], TicketsBefore(OrderItems(data), p[1].i), p[2..]))
  }

  /**
   Every identifier of every payload: whether the fixture has it, and, if so, whether it is made up from
   the real value or is the real value.
   */
  lemma IdentifierInFixture(py: Py, data: Json, p: seq<Step>)
    requires DataScrubs(py, data) && IsIdentifier(data, p)
    ensures var out := ScrubData(py, data);
      && (Has(out, p) <==> Kept(py, data, p))
      && (Has(out, p) ==>
          At(out, p) == if RunsThrough(p) then Str(FakeUuid(py, At(data, p).s)) else At(data, p))
  {
    if |p| == 1 { WalkedKeys(p); }
    if |p| > 1 { IdentifierInList(data, p); }
    var k := p[0].key;
    var u := ScrubData(py, data);
    var orders := OrderItems(data);
    DataField(py, data, k);
    HasField(data, p);
    HasField(u, p);
    hide RoleOf, Contains, FakeUuid, OrderScrubs, ScrubOrder, OrderKeeps, OrderRuns, TicketsBefore, DataScrubs,
         ScrubData, Has, At, OrderShowsId;
    if k == "orders" {
      var i := p[1].i;
      HasElement(u, p);
      OrderIdentifier(py, orders[i], i, TicketsBefore(orders, i), p[2..]);
      hide IsIdentifier;
    } else if |p| == 1 {
      assert p == [p[0]];
    }
  }

  lemma DataField(py: Py, data: Json, k: string)
    requires DataScrubs(py, data) && k in data.fields
    ensures var u := ScrubData(py, data).fields;
      && k in u
      && (k == "uuid" ==> u[k] == FakeUuidOf(py, data.fields[k]))
      && (k == "orders" ==>
          var orders := OrderItems(data);
          && (data.fields[k].Arr? ==> orders == data.fields[k].items)
          && (data.fields[k].Arr? || data.fields[k] == Str("") || data.fields[k] == Obj(map[]))
          && forall i | 0 <= i < |orders| ::
               && OrderScrubs(py, orders[i], i, TicketsBefore(orders, i))
               && u[k].Arr? && |u[k].items| == |orders|
               && u[k].items[i] == ScrubOrder(py, orders[i], i, TicketsBefore(orders, i)))
      && (k != "uuid" && k != "orders" ==> u[k] == data.fields[k])
  {
    hide OrderScrubs, ScrubOrder, FakeUuid, TicketsBefore;
  }

  /**
   Two identifiers the fixture has agree in it exactly when the originals did, provided both are
   rewritten or both are copied; a copied one meets a rewritten one only by hashing to it.
   */
  lemma IdentifiersAgreeIff(py: Py, data: Json, p: seq<Step>, q: seq<Step>)
    requires DataScrubs(py, data) && IsIdentifier(data, p) && IsIdentifier(data, q)
    requires Kept(py, data, p) && Kept(py, data, q)
    requires KeepsApart(py, At(data, p).s, At(data, q).s)
    ensures var out, v, w := ScrubData(py, data), At(data, p).s, At(data, q).s;
      && Has(out, p) && Has(out, q)
      && (At(out, p) == At(out, q) <==>
          if RunsThrough(p) == RunsThrough(q) then v == w
          else if RunsThrough(p) then FakeUuid(py, v) == w
          else v == FakeUuid(py, w))
  {
    IdentifierInFixture(py, data, p);
    IdentifierInFixture(py, data, q);
    FakeUuidKeepsApart(py, At(data, p).s, At(data, q).s);
    hide FakeUuid, Kept, RunsThrough, ScrubData, DataScrubs, KeepsApart, IsIdentifier;
  }

  // ---- an identifier that comes apart ----

  lemma EventUuidIsIdentifier()
    ensures Contains("event_uuid", "uuid")
  {
    assert "event_uuid"[6..10] == "uuid";
    FoundFirst("event_uuid", "uuid", 6);
  }

  function TicketOf(id: string): Json {
    Obj(map["event_uuid" := Str(id)])
  }

  function OrderOf(id: string): Json {
    Obj(map["event_uuid" := Str(id), "tickets" := Arr([TicketOf(id)])])
  }

  function DataOf(id: string): Json {
    Obj(map["orders" := Arr([OrderOf(id)])])
  }

  function OnOrder(): seq<Step> {
    [Key("orders"), Item(0), Key("event_uuid")]
  }

  function OnTicket(): seq<Step> {
    [Key("orders"), Item(0), Key("tickets"), Item(0), Key("event_uuid")]
  }

  lemma DataOfScrubs(py: Py, id: string)
    ensures DataScrubs(py, DataOf(id))
  {
    EventUuidIsIdentifier();
    IdentifierKey("event_uuid");
    IdIsPlain();
    var t, o := TicketOf(id), OrderOf(id);
    hide RoleOf, Contains, NatText;
    assert Prepared(t, 0, 0, true).fields == map["event_uuid" := Str(id), "id" := TicketId(0, 0)];
    assert Scrubs(py, TicketId(0, 0));
    assert TicketScrubs(py, t, 0, 0, true);
    assert TicketItems(o) == [t];
    hide TicketScrubs;
    assert OrderScrubs(py, o, 0, 0);
    hide OrderScrubs;
    assert OrderItems(DataOf(id)) == [o];
    assert TicketsBefore([o], 0) == 0;
  }

  lemma OnOrderIs(py: Py, id: string)
    ensures IsIdentifier(DataOf(id), OnOrder()) && At(DataOf(id), OnOrder()) == Str(id)
    ensures Kept(py, DataOf(id), OnOrder()) && !RunsThrough(OnOrder())
  {
    EventUuidIsIdentifier();
    IdentifierKey("event_uuid");
    hide RoleOf, Contains;
    HasElement(DataOf(id), OnOrder());
    assert OnOrder()[2..] == [Key("event_uuid")];
  }

  lemma OnTicketIs(py: Py, id: string)
    ensures IsIdentifier(DataOf(id), OnTicket()) && At(DataOf(id), OnTicket()) == Str(id)
    ensures Kept(py, DataOf(id), OnTicket()) && RunsThrough(OnTicket())
  {
    EventUuidIsIdentifier();
    IdentifierKey("event_uuid");
    hide RoleOf, Contains;
    var q := OnTicket()[2..];
    assert q == [Key("tickets"), Item(0), Key("event_uuid")] && q[2..] == [Key("event_uuid")];
    HasElement(OrderOf(id), q);
    HasElement(DataOf(id), OnTicket());
    assert TicketItems(OrderOf(id)) == [TicketOf(id)];
  }

  /** One event, named on an order and on its ticket: the fixture names two events. */
  lemma EventComesApart(py: Py, id: string)
    requires KeepsApart(py, id, id)
    ensures var data := DataOf(id);
      && DataScrubs(py, data) && Has(data, OnOrder()) && Has(data, OnTicket())
      && At(data, OnOrder()) == At(data, OnTicket()) == Str(id)
      && Has(ScrubData(py, data), OnOrder()) && Has(ScrubData(py, data), OnTicket())
      && (At(ScrubData(py, data), OnOrder()) == At(ScrubData(py, data), OnTicket()) <==> FakeUuid(py, id) == id)
  {
    DataOfScrubs(py, id);
    OnOrderIs(py, id);
    OnTicketIs(py, id);
    hide DataScrubs, ScrubData, FakeUuid, Kept, RunsThrough, Has, At, OnOrder, OnTicket, DataOf, KeepsApart;
    IdentifiersAgreeIff(py, DataOf(id), OnOrder(), OnTicket());
  }
}
