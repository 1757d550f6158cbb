/**
 What the anonymised fixture forgets, and what it keeps apart.

 `Scrub` forgets every personal value at any depth. `main` only scrubs inside a ticket and inside
 five fields of an order, so a personal key directly on an order or on the payload is copied as
 it stands; ForgetsIff says exactly when two payloads become one fixture.
 */
module FixturePrivacy {
  import opened Strings
  import opened GoJson
  import opened Payload
  import opened Anonymizer
  import opened FixtureFidelity

  // ---- what belongs to a person, by the names of the keys ----

  /** Replaced whatever stands there. */
  predicate NamesPerson(key: string) {
    key in {"first_name", "last_name", "full_name", "name", "email"}
  }

  /** Replaced unless it is empty. */
  predicate DescribesPerson(key: string) {
    key in {"phone", "company_name", "business_name", "answer_value", "answer_value_secondary"}
  }

  /** Replaced by a hash of what stands there. */
  predicate PointsToPerson(key: string) {
    key in {"code", "ticket_download_absolute_url"}
  }

  /** Below any other key nothing is personal but what stands under one of the above further down. */
  predicate Searched(key: string) {
    !NamesPerson(key) && !DescribesPerson(key) && !PointsToPerson(key)
  }

  /** Equal, or both non-empty. */
  predicate BothGiven(py: Py, a: Json, b: Json) {
    a == b || (Truthy(py, a) && Truthy(py, b))
  }

  /** The two trees differ at most in values that belong to a person, at any depth. */
  ghost predicate SameButPersonal(py: Py, a: Json, b: Json) {
    if a.Arr? && b.Arr? then
      |a.items| == |b.items| && forall i | 0 <= i < |a.items| :: SameButPersonal(py, a.items[i], b.items[i])
    else if a.Obj? && b.Obj? then
      a.fields.Keys == b.fields.Keys &&
      forall k | k in a.fields ::
        if Searched(k) then SameButPersonal(py, a.fields[k], b.fields[k])
        else SameValue(py, k, a.fields[k], b.fields[k])
    else a == b
  }

  /** What may differ under a key that names personal data. */
  predicate SameValue(py: Py, key: string, a: Json, b: Json) {
    && (DescribesPerson(key) ==> BothGiven(py, a, b))
    && (PointsToPerson(key) ==> a == b)
  }

  /** What is empty, of each kind of value. */
  lemma EmptyIff(py: Py, j: Json)
    ensures !Truthy(py, j) <==>
      j in {Null, Bool(false), Str(""), Arr([]), Obj(map[])} || (j.Num? && !py.nonzero(j.text))
  {
  }

  /** Tickets that are missing or empty are no tickets; anything else that is no list makes the script fail. */
  lemma NoTicketsIff(py: Py, j: Json)
    ensures Iterable(py, j) <==>
      j.Arr? || j in {Null, Bool(false), Str(""), Obj(map[])} || (j.Num? && !py.nonzero(j.text))
    ensures EmptyIterable(j) <==> (j.Str? && |j.s| == 0) || (j.Obj? && |j.fields| == 0)
  {
    EmptyIff(py, j);
  }

  lemma NamesReplaced(key: string)
    requires NamesPerson(key)
    ensures RoleOf(key).FirstName? || RoleOf(key).LastName? || RoleOf(key).FullName? || RoleOf(key).Email?
  {
    hide Contains;
    NoUuid(key);
  }

  lemma DescriptionsReplaced(key: string)
    requires DescribesPerson(key)
    ensures RoleOf(key).Phone? || RoleOf(key).Company? || RoleOf(key).FreeText? || RoleOf(key).SecondaryText?
  {
    hide Contains;
    NoUuid(key);
  }

  lemma PointersReplaced(key: string)
    requires PointsToPerson(key)
    ensures RoleOf(key).Code? || RoleOf(key).DownloadUrl?
  {
    hide Contains;
    NoUuid(key);
  }

  lemma OthersSearched(key: string)
    requires Searched(key)
    ensures RoleOf(key).Plain? || RoleOf(key).Identifier?
  {
    hide Contains;
  }

  /** scrub searches a value exactly when its key is none of these; only then may the key name an identifier. */
  lemma RolesOfKeys(key: string)
    ensures Searched(key) <==> RoleOf(key).Plain? || RoleOf(key).Identifier?
    ensures NamesPerson(key) <==>
      RoleOf(key).FirstName? || RoleOf(key).LastName? || RoleOf(key).FullName? || RoleOf(key).Email?
    ensures DescribesPerson(key) <==>
      RoleOf(key).Phone? || RoleOf(key).Company? || RoleOf(key).FreeText? || RoleOf(key).SecondaryText?
    ensures PointsToPerson(key) <==> RoleOf(key).Code? || RoleOf(key).DownloadUrl?
  {
    hide RoleOf, NamesPerson, DescribesPerson, PointsToPerson;
    if NamesPerson(key) { NamesReplaced(key); }
    if DescribesPerson(key) { DescriptionsReplaced(key); }
    if PointsToPerson(key) { PointersReplaced(key); }
    if Searched(key) { OthersSearched(key); }
  }

  lemma {:induction false} SameIsSame(py: Py, a: Json)
    ensures SameButPersonal(py, a, a)
  {
    hide RoleOf, Truthy;
    match a
    case Arr(xs) => forall i | 0 <= i < |xs| ensures SameButPersonal(py, xs[i], xs[i]) { SameIsSame(py, xs[i]); }
    case Obj(f) => forall k | k in f ensures SameButPersonal(py, f[k], f[k]) { SameIsSame(py, f[k]); }
    case _ =>
  }

  /** The answer branch depends only on strings, which the relation keeps. */
  lemma SameAnswerText(py: Py, f: map<string, Json>, g: map<string, Json>, id: Identity)
    requires SameButPersonal(py, Obj(f), Obj(g))
    requires RoleOf("variation") == Plain && RoleOf("question_heading") == Plain
    ensures var v, h := Get(f, "variation"), Get(f, "question_heading");
      var w, i := Get(g, "variation"), Get(g, "question_heading");
      AnswerScrubs(v, h) == AnswerScrubs(w, i) && AnswerText(v, h, id) == AnswerText(w, i, id)
  {
    hide RoleOf, Contains, ToLower;
    assert "variation" in f ==> SameButPersonal(py, f["variation"], g["variation"]);
    assert "question_heading" in f ==> SameButPersonal(py, f["question_heading"], g["question_heading"]);
  }

  lemma PlainAnswerKeys()
    ensures RoleOf("variation") == RoleOf("question_heading") == Plain
  {
    hide Contains;
    NoUuid("variation");
    NoUuid("question_heading");
  }

  /** The same trees after scrubbing, or both abort. */
  ghost predicate ScrubSame(py: Py, a: Json, b: Json, id: Identity) {
    Scrubs(py, a) == Scrubs(py, b) && (Scrubs(py, a) ==> Scrub(py, a, id) == Scrub(py, b, id))
  }

  lemma StringsSame(py: Py, a: Json, b: Json)
    requires SameButPersonal(py, a, b) && (a.Str? || b.Str?)
    ensures a == b
  {
  }

  /** The relation on one field, by the role of its key. */
  lemma FieldSame(py: Py, f: map<string, Json>, g: map<string, Json>, k: string)
    requires SameButPersonal(py, Obj(f), Obj(g)) && k in f
    ensures k in g
    ensures if Searched(k) then SameButPersonal(py, f[k], g[k])
            else SameValue(py, k, f[k], g[k])
  {
    hide RoleOf, SameValue;
  }

  lemma ReplacedSame(py: Py, k: string, a: Json, b: Json)
    requires if Searched(k) then SameButPersonal(py, a, b)
             else SameValue(py, k, a, b)
    ensures Replaced(py, k, a) == Replaced(py, k, b)
    ensures !Replaced(py, k, a) ==> a == b || Searched(k)
  {
    RolesOfKeys(k);
    if RoleOf(k).Identifier? && (a.Str? || b.Str?) { StringsSame(py, a, b); }
    hide RoleOf, Truthy, SameButPersonal, Searched, NamesPerson, DescribesPerson, PointsToPerson;
  }

  lemma IdReplacementSame(py: Py, f: map<string, Json>, g: map<string, Json>, k: string, a: Json, b: Json, id: Identity)
    requires RoleOf(k).Identifier? && SameButPersonal(py, a, b) && a.Str?
    ensures Replacement(py, f, k, a, id) == Replacement(py, g, k, b, id)
  {
    StringsSame(py, a, b);
    hide RoleOf, AnswerText, SameButPersonal;
  }

  lemma ReplacementSame(py: Py, f: map<string, Json>, g: map<string, Json>, k: string, a: Json, b: Json, id: Identity)
    requires if Searched(k) then SameButPersonal(py, a, b)
             else SameValue(py, k, a, b)
    requires Replaced(py, k, a) && Replaced(py, k, b)
    requires AnswerText(Get(f, "variation"), Get(f, "question_heading"), id)
          == AnswerText(Get(g, "variation"), Get(g, "question_heading"), id)
    ensures Replacement(py, f, k, a, id) == Replacement(py, g, k, b, id)
  {
    RolesOfKeys(k);
    hide RoleOf, AnswerText, FakeUuid, Get, SameButPersonal, Truthy, Take, Upper, FakeUuidOf, Searched, NamesPerson,
         DescribesPerson, PointsToPerson;
    if RoleOf(k).Identifier? { IdReplacementSame(py, f, g, k, a, b, id); }
  }

  lemma FieldForgets(py: Py, f: map<string, Json>, g: map<string, Json>, k: string, id: Identity)
    requires SameButPersonal(py, Obj(f), Obj(g)) && k in f && k in g
    requires Searched(k) ==> ScrubSame(py, f[k], g[k], id)
    ensures Replaced(py, k, f[k]) == Replaced(py, k, g[k])
    ensures Replaced(py, k, f[k]) ==> Replacement(py, f, k, f[k], id) == Replacement(py, g, k, g[k], id)
    ensures !Replaced(py, k, f[k]) ==> ScrubSame(py, f[k], g[k], id)
  {
    hide RoleOf, AnswerScrubs, AnswerText, Replaced, Replacement, Get, SameButPersonal, SameValue, Truthy, Scrub,
         Scrubs;
    PlainAnswerKeys();
    SameAnswerText(py, f, g, id);
    FieldSame(py, f, g, k);
    ReplacedSame(py, k, f[k], g[k]);
    if Replaced(py, k, f[k]) { ReplacementSame(py, f, g, k, f[k], g[k], id); }
  }

  /** Scrubbing forgets personal values at any depth. */
  lemma {:induction false} ScrubForgets(py: Py, a: Json, b: Json, id: Identity)
    requires SameButPersonal(py, a, b)
    ensures ScrubSame(py, a, b, id)
  {
    hide RoleOf, Truthy, AnswerScrubs, AnswerText, FakeUuid, Replaced, Replacement, Get;
    if a.Arr? && b.Arr? {
      forall i | 0 <= i < |a.items| ensures ScrubSame(py, a.items[i], b.items[i], id) {
        ScrubForgets(py, a.items[i], b.items[i], id);
      }
    } else if a.Obj? && b.Obj? {
      var f, g := a.fields, b.fields;
      forall k | k in f
        ensures Replaced(py, k, f[k]) == Replaced(py, k, g[k])
        ensures Replaced(py, k, f[k]) ==> Replacement(py, f, k, f[k], id) == Replacement(py, g, k, g[k], id)
        ensures !Replaced(py, k, f[k]) ==> ScrubSame(py, f[k], g[k], id)
      {
        FieldSame(py, f, g, k);
        if Searched(k) { ScrubForgets(py, f[k], g[k], id); }
        FieldForgets(py, f, g, k, id);
      }
      PlainAnswerKeys();
      SameAnswerText(py, f, g, id);
      ObjectForgets(py, f, g, id);
    }
  }

  lemma ObjectForgets(py: Py, f: map<string, Json>, g: map<string, Json>, id: Identity)
    requires f.Keys == g.Keys
    requires forall k | k in f :: Replaced(py, k, f[k]) == Replaced(py, k, g[k])
    requires forall k | k in f && Replaced(py, k, f[k]) ::
      Replacement(py, f, k, f[k], id) == Replacement(py, g, k, g[k], id)
    requires forall k | k in f && !Replaced(py, k, f[k]) :: ScrubSame(py, f[k], g[k], id)
    requires AnswerScrubs(Get(f, "variation"), Get(f, "question_heading"))
          == AnswerScrubs(Get(g, "variation"), Get(g, "question_heading"))
    ensures ScrubSame(py, Obj(f), Obj(g), id)
  {
    hide RoleOf, AnswerScrubs, Replaced, Replacement, Get;
    if Scrubs(py, Obj(f)) && Scrubs(py, Obj(g)) {
      assert Scrub(py, Obj(f), id).fields == Scrub(py, Obj(g), id).fields;
    }
  }

  // ---- main: exactly which differences the fixture shows ----

  /** The fields of an order that main scrubs. */
  function ScrubbedKeys(): set<string> {
    {"address", "order_lines", "discount", "payment_method"}
  }

  ghost predicate FieldBoth(f: map<string, Json>, g: map<string, Json>, k: string) {
    k in f <==> k in g
  }

  /** Two orders that differ, in what main looks at, at most in personal values. */
  ghost predicate OrderSame(py: Py, a: Json, b: Json, i: nat, before: nat) {
    && a.Obj? && b.Obj?
    && (forall k | k in OrderKeys() - {"order_id"} :: FieldBoth(a.fields, b.fields, k))
    && Prop(a, "uuid") == Prop(b, "uuid")
    && (forall k | k in ScrubbedKeys() :: SameButPersonal(py, Prop(a, k), Prop(b, k)))
    && TicketsSame(py, a, b, i, before)
  }

  ghost predicate TicketsSame(py: Py, a: Json, b: Json, i: nat, before: nat) {
    var ta, tb := TicketItems(a), TicketItems(b);
    && |ta| == |tb|
    && (ta == [] ==> Prop(a, "tickets") == Prop(b, "tickets"))
    && Prop(a, "tickets").Arr? == Prop(b, "tickets").Arr?
    && forall j | 0 <= j < |ta| :: TicketSame(py, ta[j], tb[j], i, j, Verbose(before, j))
  }

  ghost predicate TicketSame(py: Py, a: Json, b: Json, i: nat, j: nat, verbose: bool) {
    a.Obj? && b.Obj? && SameButPersonal(py, Prepared(a, i, j, verbose), Prepared(b, i, j, verbose))
  }

  /** The part of an order that main copies without looking at it. */
  function OrderRest(o: Json): map<string, Json> {
    if o.Obj? then o.fields - OrderKeys() else map[]
  }

  function DataRest(data: Json): map<string, Json> {
    if data.Obj? then data.fields - {"uuid", "orders"} else map[]
  }

  lemma TicketsForget(py: Py, a: Json, b: Json, i: nat, before: nat)
    requires OrderScrubs(py, a, i, before) && OrderScrubs(py, b, i, before) && TicketsSame(py, a, b, i, before)
    ensures ScrubTickets(py, a, i, before) == ScrubTickets(py, b, i, before)
  {
    hide Scrub, Scrubs, SameButPersonal, Prepared, Iterable, Prop;
    var ta, tb := TicketItems(a), TicketItems(b);
    forall j | 0 <= j < |ta|
      ensures ScrubTicket(py, ta[j], i, j, Verbose(before, j)) == ScrubTicket(py, tb[j], i, j, Verbose(before, j))
    {
      assert TicketSame(py, ta[j], tb[j], i, j, Verbose(before, j));
      assert TicketScrubs(py, ta[j], i, j, Verbose(before, j));
      ScrubForgets(py, Prepared(ta[j], i, j, Verbose(before, j)), Prepared(tb[j], i, j, Verbose(before, j)),
                   Attendee(py, i, j));
    }
  }

  lemma OrderAlsoScrubs(py: Py, a: Json, b: Json, i: nat, before: nat)
    requires OrderSame(py, a, b, i, before) && OrderScrubs(py, a, i, before)
    ensures OrderScrubs(py, b, i, before)
  {
    hide Scrub, Scrubs, SameButPersonal, Prepared, Prop, Truthy;
    var id := Buyer(py, i);
    ScrubForgets(py, Prop(a, "address"), Prop(b, "address"), id);
    ScrubForgets(py, Prop(a, "order_lines"), Prop(b, "order_lines"), id);
    ScrubForgets(py, Prop(a, "discount"), Prop(b, "discount"), id);
    ScrubForgets(py, Prop(a, "payment_method"), Prop(b, "payment_method"), id);
    var ta, tb := TicketItems(a), TicketItems(b);
    forall j | 0 <= j < |tb| ensures TicketScrubs(py, tb[j], i, j, Verbose(before, j)) {
      assert TicketSame(py, ta[j], tb[j], i, j, Verbose(before, j));
      assert TicketScrubs(py, ta[j], i, j, Verbose(before, j));
      ScrubForgets(py, Prepared(ta[j], i, j, Verbose(before, j)), Prepared(tb[j], i, j, Verbose(before, j)), id);
    }
  }

  lemma OrderFieldForgets(py: Py, a: Json, b: Json, i: nat, before: nat, k: string)
    requires OrderSame(py, a, b, i, before) && OrderScrubs(py, a, i, before) && OrderScrubs(py, b, i, before)
    requires k in a.fields && k in b.fields && k in OrderKeys()
    ensures ScrubOrder(py, a, i, before).fields[k] == ScrubOrder(py, b, i, before).fields[k]
  {
    hide Scrub, SameButPersonal, ScrubTickets, TicketsSame, Prepared, FakeUuidOf, TicketScrubs, Iterable;
    TicketsForget(py, a, b, i, before);
    if k in ScrubbedKeys() {
      ScrubForgets(py, a.fields[k], b.fields[k], Buyer(py, i));
    }
  }

  /** One order: the two results agree exactly when the copied parts do. */
  lemma OrderForgetsIff(py: Py, a: Json, b: Json, i: nat, before: nat)
    requires OrderSame(py, a, b, i, before) && OrderScrubs(py, a, i, before) && OrderScrubs(py, b, i, before)
    ensures ScrubOrder(py, a, i, before) == ScrubOrder(py, b, i, before) <==> OrderRest(a) == OrderRest(b)
  {
    var x, y := ScrubOrder(py, a, i, before).fields, ScrubOrder(py, b, i, before).fields;
    forall k | k in a.fields && k in b.fields && k in OrderKeys() ensures x[k] == y[k] {
      OrderFieldForgets(py, a, b, i, before, k);
    }
    RestOfResult(py, a, i, before);
    RestOfResult(py, b, i, before);
    hide Scrub, SameButPersonal, ScrubTickets, OrderScrubs, TicketsSame, FakeUuidOf, ScrubOrder, Prop,
         ScrubbedKeys, OrderKeys;
    if OrderRest(a) == OrderRest(b) {
      KeysFromRest(a, b);
      forall k | k in x ensures k in y && x[k] == y[k] {
        if k !in OrderKeys() { assert OrderRest(a)[k] == OrderRest(b)[k]; }
      }
      assert x.Keys == y.Keys;
      assert x == y;
    }
  }

  lemma CopiedField(py: Py, a: Json, i: nat, before: nat, k: string)
    requires OrderScrubs(py, a, i, before) && k in a.fields && k !in OrderKeys()
    ensures ScrubOrder(py, a, i, before).fields[k] == a.fields[k]
  {
    assert a.Obj?;
    hide OrderScrubs, Scrub, ScrubTickets, FakeUuidOf;
  }

  lemma RestOfResult(py: Py, a: Json, i: nat, before: nat)
    requires OrderScrubs(py, a, i, before)
    ensures var x := ScrubOrder(py, a, i, before).fields;
      && x.Keys == a.fields.Keys + {"order_id"} && x["order_id"] == OrderId(py, i)
      && x - OrderKeys() == OrderRest(a)
  {
    assert a.Obj? && "order_id" in OrderKeys();
    hide OrderScrubs, Scrub, ScrubTickets, FakeUuidOf, OrderKeys;
    forall k | k in a.fields && k !in OrderKeys() ensures ScrubOrder(py, a, i, before).fields[k] == a.fields[k] {
      CopiedField(py, a, i, before, k);
    }
  }

  lemma KeysFromRest(a: Json, b: Json)
    requires a.Obj? && b.Obj? && OrderRest(a) == OrderRest(b)
    requires forall k | k in OrderKeys() - {"order_id"} :: FieldBoth(a.fields, b.fields, k)
    ensures a.fields.Keys + {"order_id"} == b.fields.Keys + {"order_id"}
  {
    hide OrderKeys;
    forall k ensures k in a.fields.Keys + {"order_id"} <==> k in b.fields.Keys + {"order_id"} {
      if k in OrderKeys() - {"order_id"} {
        assert FieldBoth(a.fields, b.fields, k);
      } else if k != "order_id" {
        assert k in OrderRest(a) <==> k in a.fields;
        assert k in OrderRest(b) <==> k in b.fields;
      }
    }
  }

  // ---- the whole payload ----

  lemma WalkedKeysPlain()
    ensures RoleOf("orders") == RoleOf("tickets") == RoleOf("id") == Plain
    ensures forall k | k in ScrubbedKeys() :: RoleOf(k) == Plain
  {
    hide Contains;
    NoUuid("orders"); NoUuid("tickets"); NoUuid("id");
    ScrubbedKeysPlain();
  }

  lemma ScrubbedKeysPlain()
    ensures forall k | k in ScrubbedKeys() :: RoleOf(k) == Plain
  {
    hide Contains;
    NoUuid("address"); NoUuid("order_lines"); NoUuid("discount"); NoUuid("payment_method");
  }

  /** None of the keys main goes through belongs to a person. */
  lemma WalkedKeysSearched()
    ensures Searched("orders") && Searched("tickets") && Searched("id") && Searched("uuid")
    ensures forall k | k in ScrubbedKeys() :: Searched(k)
  {
  }

  /** Same trees under a key that scrub searches further. */
  lemma PropSame(py: Py, a: Json, b: Json, key: string)
    requires SameButPersonal(py, a, b) && a.Obj?
    requires Searched(key)
    ensures b.Obj? && SameButPersonal(py, Prop(a, key), Prop(b, key))
  {
    hide Searched, SameValue;
    SameIsSame(py, Null);
  }

  lemma ItemsSame(py: Py, a: Json, b: Json)
    requires SameButPersonal(py, a, b)
    ensures a.Arr? == b.Arr? && |ItemsOf(a)| == |ItemsOf(b)|
    ensures forall i | 0 <= i < |ItemsOf(a)| :: SameButPersonal(py, ItemsOf(a)[i], ItemsOf(b)[i])
  {
    hide Searched, SameValue;
  }

  /** An empty or falsy value has nothing personal in it. */
  lemma FalsySame(py: Py, a: Json, b: Json)
    requires SameButPersonal(py, a, b) && (!Truthy(py, a) || a == Arr([]))
    ensures a == b
  {
    hide Searched, SameValue;
  }

  lemma PreparedSame(py: Py, a: Json, b: Json, i: nat, j: nat, verbose: bool)
    requires SameButPersonal(py, a, b) && a.Obj?
    ensures TicketSame(py, a, b, i, j, verbose)
  {
    WalkedKeysSearched();
    SameIsSame(py, TicketId(i, j));
    hide Searched, SameValue, TicketId, ScrubbedKeys;
    var f, g := Prepared(a, i, j, verbose).fields, Prepared(b, i, j, verbose).fields;
    assert f.Keys == g.Keys;
    forall k | k in f
      ensures if Searched(k) then SameButPersonal(py, f[k], g[k])
              else SameValue(py, k, f[k], g[k])
    {
      if k != "id" { FieldSame(py, a.fields, b.fields, k); }
    }
  }

  /** Two orders that differ in personal values only, and share their id. */
  lemma OrderIsSame(py: Py, a: Json, b: Json, i: nat, before: nat)
    requires SameButPersonal(py, a, b) && OrderScrubs(py, a, i, before) && Prop(a, "uuid") == Prop(b, "uuid")
    ensures OrderSame(py, a, b, i, before)
  {
    WalkedKeysSearched();
    hide Scrubs, Searched, SameValue;
    assert a.Obj? && a.fields.Keys == b.fields.Keys;
    forall k | k in ScrubbedKeys() ensures SameButPersonal(py, Prop(a, k), Prop(b, k)) { PropSame(py, a, b, k); }
    PropSame(py, a, b, "tickets");
    TicketListSame(py, a, b, i, before);
  }

  lemma TicketListSame(py: Py, a: Json, b: Json, i: nat, before: nat)
    requires SameButPersonal(py, Prop(a, "tickets"), Prop(b, "tickets")) && OrderScrubs(py, a, i, before)
    ensures TicketsSame(py, a, b, i, before)
  {
    hide Scrubs, SameButPersonal, Prop, Prepared;
    ItemsSame(py, Prop(a, "tickets"), Prop(b, "tickets"));
    var ta, tb := TicketItems(a), TicketItems(b);
    if ta == [] { FalsySame(py, Prop(a, "tickets"), Prop(b, "tickets")); }
    forall j | 0 <= j < |ta| ensures TicketSame(py, ta[j], tb[j], i, j, Verbose(before, j)) {
      assert TicketScrubs(py, ta[j], i, j, Verbose(before, j));
      PreparedSame(py, ta[j], tb[j], i, j, Verbose(before, j));
    }
  }

  /** A rewritten id differs when the id does: only its strings are hashed, and those are shared. */
  lemma UuidDiffers(py: Py, a: Json, b: Json)
    requires SameButPersonal(py, a, b)
    ensures FakeUuidOf(py, a) == FakeUuidOf(py, b) <==> a == b
  {
    hide FakeUuid;
    if a.Str? || b.Str? { StringsSame(py, a, b); }
  }

  /** What main copies into the fixture as it stands. */
  ghost predicate OrderCopied(a: Json, b: Json) {
    OrderRest(a) == OrderRest(b) && Prop(a, "uuid") == Prop(b, "uuid")
  }

  ghost predicate DataCopied(a: Json, b: Json) {
    && DataRest(a) == DataRest(b) && Prop(a, "uuid") == Prop(b, "uuid")
    && |OrderItems(a)| == |OrderItems(b)|
    && forall i | 0 <= i < |OrderItems(a)| :: OrderCopied(OrderItems(a)[i], OrderItems(b)[i])
  }

  /** Personal differences in an order show exactly when they sit directly on it. */
  lemma OrderShows(py: Py, a: Json, b: Json, i: nat, before: nat)
    requires SameButPersonal(py, a, b) && OrderScrubs(py, a, i, before)
    ensures OrderScrubs(py, b, i, before)
    ensures ScrubOrder(py, a, i, before) == ScrubOrder(py, b, i, before) <==> OrderCopied(a, b)
  {
    if Prop(a, "uuid") == Prop(b, "uuid") {
      OrderIsSame(py, a, b, i, before);
      OrderAlsoScrubs(py, a, b, i, before);
      OrderForgetsIff(py, a, b, i, before);
    } else {
      OtherIdScrubs(py, a, b, i, before);
      OtherIdShows(py, a, b, i, before);
    }
  }

  /** Whether an order can be scrubbed does not depend on its id. */
  lemma OtherIdScrubs(py: Py, a: Json, b: Json, i: nat, before: nat)
    requires SameButPersonal(py, a, b) && OrderScrubs(py, a, i, before)
    requires Prop(a, "uuid") != Prop(b, "uuid")
    ensures OrderScrubs(py, b, i, before)
  {
    hide Searched, SameValue, Scrubs;
    assert a.Obj? && b.Obj? && "uuid" in b.fields;
    var c := Obj(b.fields["uuid" := Prop(a, "uuid")]);
    SameWithId(py, a, b);
    assert forall k | k != "uuid" :: Prop(c, k) == Prop(b, k);
    OrderIsSame(py, a, c, i, before);
    OrderAlsoScrubs(py, a, c, i, before);
  }

  lemma SameWithId(py: Py, a: Json, b: Json)
    requires SameButPersonal(py, a, b) && a.Obj? && b.Obj? && "uuid" in a.fields
    ensures SameButPersonal(py, a, Obj(b.fields["uuid" := a.fields["uuid"]]))
  {
    SameIsSame(py, a.fields["uuid"]);
    WalkedKeysSearched();
    hide Searched, SameValue;
    var g := b.fields["uuid" := a.fields["uuid"]];
    assert g.Keys == a.fields.Keys;
    forall k | k in a.fields
      ensures if Searched(k) then SameButPersonal(py, a.fields[k], g[k])
              else SameValue(py, k, a.fields[k], g[k])
    {
      if k != "uuid" { FieldSame(py, a.fields, b.fields, k); }
    }
  }

  lemma OtherIdShows(py: Py, a: Json, b: Json, i: nat, before: nat)
    requires SameButPersonal(py, a, b) && OrderScrubs(py, a, i, before) && OrderScrubs(py, b, i, before)
    requires Prop(a, "uuid") != Prop(b, "uuid")
    ensures ScrubOrder(py, a, i, before) != ScrubOrder(py, b, i, before)
  {
    assert a.Obj? && b.Obj?;
    WalkedKeysSearched();
    PropSame(py, a, b, "uuid");
    hide OrderScrubs, Searched, SameButPersonal, Scrub, ScrubTickets, FakeUuidOf;
    UuidDiffers(py, Prop(a, "uuid"), Prop(b, "uuid"));
    assert "uuid" in a.fields && "uuid" in b.fields by { SameKeys(py, a, b); }
    assert ScrubOrder(py, a, i, before).fields["uuid"] == FakeUuidOf(py, a.fields["uuid"]);
    assert ScrubOrder(py, b, i, before).fields["uuid"] == FakeUuidOf(py, b.fields["uuid"]);
  }

  lemma SameKeys(py: Py, a: Json, b: Json)
    requires SameButPersonal(py, a, b) && a.Obj?
    ensures b.Obj? && a.fields.Keys == b.fields.Keys
  {
    hide Searched, SameValue;
  }

  lemma {:induction false} BeforeSame(a: seq<Json>, b: seq<Json>, i: nat)
    requires i <= |a| == |b| && forall k | 0 <= k < |a| :: |TicketItems(a[k])| == |TicketItems(b[k])|
    ensures TicketsBefore(a, i) == TicketsBefore(b, i)
  {
    if i > 0 { BeforeSame(a, b, i - 1); }
  }

  lemma OrdersShow(py: Py, a: seq<Json>, b: seq<Json>)
    requires |a| == |b| && forall i | 0 <= i < |a| :: SameButPersonal(py, a[i], b[i])
    requires forall i | 0 <= i < |a| :: OrderScrubs(py, a[i], i, TicketsBefore(a, i))
    ensures forall i | 0 <= i < |a| :: TicketsBefore(a, i) == TicketsBefore(b, i)
    ensures forall i | 0 <= i < |a| ::
      OrderScrubs(py, b[i], i, TicketsBefore(b, i)) &&
      (ScrubOrder(py, a[i], i, TicketsBefore(a, i)) == ScrubOrder(py, b[i], i, TicketsBefore(b, i)) <==>
       OrderCopied(a[i], b[i]))
  {
    hide SameButPersonal, OrderScrubs, ScrubOrder, OrderCopied, TicketsBefore;
    forall k | 0 <= k < |a| ensures |TicketItems(a[k])| == |TicketItems(b[k])| {
      TicketCountSame(py, a[k], b[k], k, TicketsBefore(a, k));
    }
    forall i | 0 <= i < |a|
      ensures TicketsBefore(a, i) == TicketsBefore(b, i)
      ensures OrderScrubs(py, b[i], i, TicketsBefore(b, i)) &&
        (ScrubOrder(py, a[i], i, TicketsBefore(a, i)) == ScrubOrder(py, b[i], i, TicketsBefore(b, i)) <==>
       OrderCopied(a[i], b[i]))
    {
      BeforeSame(a, b, i);
      OrderShows(py, a[i], b[i], i, TicketsBefore(a, i));
    }
  }

  lemma TicketCountSame(py: Py, a: Json, b: Json, i: nat, before: nat)
    requires SameButPersonal(py, a, b) && OrderScrubs(py, a, i, before)
    ensures |TicketItems(a)| == |TicketItems(b)|
  {
    WalkedKeysSearched();
    hide Searched, Scrubs, SameButPersonal;
    PropSame(py, a, b, "tickets");
    ItemsSame(py, Prop(a, "tickets"), Prop(b, "tickets"));
  }

  ghost predicate OrdersAre(py: Py, orders: seq<Json>, items: seq<Json>)
    requires forall i | 0 <= i < |orders| :: OrderScrubs(py, orders[i], i, TicketsBefore(orders, i))
  {
    |items| == |orders| &&
    forall i | 0 <= i < |orders| :: items[i] == ScrubOrder(py, orders[i], i, TicketsBefore(orders, i))
  }

  lemma DataResult(py: Py, a: Json)
    requires DataScrubs(py, a)
    ensures ScrubData(py, a).Obj?
    ensures var x, orders := ScrubData(py, a).fields, OrderItems(a);
      && a.Obj? && x.Keys == a.fields.Keys + {"uuid"} && x["uuid"] == FakeUuidOf(py, Prop(a, "uuid"))
      && x - {"uuid", "orders"} == DataRest(a)
      && (orders == [] && "orders" in a.fields ==> x["orders"] == a.fields["orders"])
      && (orders != [] ==> "orders" in x && x["orders"].Arr? && OrdersAre(py, orders, x["orders"].items))
  {
    hide OrderScrubs, ScrubOrder, FakeUuidOf;
  }

  /**
   Two payloads that differ only in personal values, at any depth, always scrub alike, and become the
   same fixture exactly when what main copies unread, directly on an order or on the payload, is equal.
   */
  lemma ForgetsIff(py: Py, a: Json, b: Json)
    requires SameButPersonal(py, a, b) && DataScrubs(py, a)
    ensures DataScrubs(py, b)
    ensures ScrubData(py, a) == ScrubData(py, b) <==> DataCopied(a, b)
  {
    WalkedKeysSearched();
    hide Searched, SameButPersonal, ScrubOrder, OrderScrubs, FakeUuidOf, OrderCopied, TicketsBefore, DataRest,
         ScrubbedKeys, ScrubData;
    PropSame(py, a, b, "uuid");
    UuidDiffers(py, Prop(a, "uuid"), Prop(b, "uuid"));
    PropSame(py, a, b, "orders");
    SameKeys(py, a, b);
    ItemsSame(py, Prop(a, "orders"), Prop(b, "orders"));
    var xs, ys := OrderItems(a), OrderItems(b);
    OrdersShow(py, xs, ys);
    if xs == [] && "orders" in a.fields { EmptySame(py, a.fields["orders"], b.fields["orders"]); }
    DataResult(py, a);
    DataResult(py, b);
    var x, y := ScrubData(py, a).fields, ScrubData(py, b).fields;
    if DataCopied(a, b) {
      hide DataScrubs;
      if xs != [] { assert x["orders"].items == y["orders"].items; }
      SameMaps(x, y, {"uuid", "orders"});
    }
    if x == y {
      hide DataScrubs;
      assert DataRest(a) == DataRest(b);
      forall i | 0 <= i < |xs| ensures OrderCopied(xs[i], ys[i]) {
        assert x["orders"].items[i] == y["orders"].items[i];
      }
    }
  }

  lemma EmptySame(py: Py, a: Json, b: Json)
    requires SameButPersonal(py, a, b) && (a == Arr([]) || EmptyIterable(a))
    ensures a == b
  {
    hide Searched, SameValue;
  }

  lemma SameMaps(x: map<string, Json>, y: map<string, Json>, keys: set<string>)
    requires x.Keys == y.Keys && x - keys == y - keys && forall k | k in keys && k in x :: x[k] == y[k]
    ensures x == y
  {
    forall k | k in x ensures x[k] == y[k] {
      if k !in keys { assert x[k] == (x - keys)[k] && y[k] == (y - keys)[k]; }
    }
  }

  /** The name that stands directly on an order is copied into the fixture. */
  lemma OrderNameIsCopied(py: Py, name: string, other: string)
    requires name != other
    ensures var a, b := NamedOrder(name), NamedOrder(other);
      && SameButPersonal(py, a, b) && DataScrubs(py, a) && DataScrubs(py, b)
      && ScrubData(py, a) != ScrubData(py, b)
  {
    var a, b := NamedOrder(name), NamedOrder(other);
    NamedOrderScrubs(py, name);
    NamedOrdersAlike(py, name, other);
    NamesAreCopied(name, other);
    hide SameButPersonal, DataScrubs, ScrubData, DataCopied;
    ForgetsIff(py, a, b);
  }

  lemma NamesAreCopied(name: string, other: string)
    ensures DataCopied(NamedOrder(name), NamedOrder(other)) ==> name == other
  {
    NamedRest(name);
    NamedRest(other);
    hide NamedOrder, OrderRest;
    if DataCopied(NamedOrder(name), NamedOrder(other)) {
      assert OrderCopied(OrderItems(NamedOrder(name))[0], OrderItems(NamedOrder(other))[0]);
      assert map["name" := Str(name)]["name"] == map["name" := Str(other)]["name"];
    }
  }

  function NamedOrder(name: string): Json {
    Obj(map["orders" := Arr([Obj(map["name" := Str(name)])])])
  }

  lemma NamedOrderScrubs(py: Py, name: string)
    ensures DataScrubs(py, NamedOrder(name))
  {
    var o := Obj(map["name" := Str(name)]);
    hide RoleOf, AnswerScrubs;
    assert OrderScrubs(py, o, 0, 0);
    hide OrderScrubs;
    assert OrderItems(NamedOrder(name)) == [o];
    assert TicketsBefore([o], 0) == 0;
  }

  lemma SingleSame(py: Py, k: string, x: Json, y: Json)
    requires k == "name" || (Searched(k) && SameButPersonal(py, x, y))
    ensures SameButPersonal(py, Obj(map[k := x]), Obj(map[k := y]))
  {
    if k == "name" { assert !Searched(k) && SameValue(py, k, x, y); }
    hide Searched, SameValue;
  }

  lemma NamedOrdersAlike(py: Py, name: string, other: string)
    ensures SameButPersonal(py, NamedOrder(name), NamedOrder(other))
  {
    WalkedKeysSearched();
    hide Searched, SameValue;
    SingleSame(py, "name", Str(name), Str(other));
    var x, y := Obj(map["name" := Str(name)]), Obj(map["name" := Str(other)]);
    assert SameButPersonal(py, Arr([x]), Arr([y]));
    hide SameButPersonal;
    SingleSame(py, "orders", Arr([x]), Arr([y]));
  }

  lemma NamedRest(name: string)
    ensures |OrderItems(NamedOrder(name))| == 1
    ensures OrderRest(OrderItems(NamedOrder(name))[0]) == map["name" := Str(name)]
  {
    assert "name" !in OrderKeys();
  }

  // ---- identifiers ----

  datatype Step = Key(key: string) | Item(i: nat)

  /** The value at the end of a path, for a path the tree has. */
  predicate Has(j: Json, path: seq<Step>)
    decreases |path|
  {
    path == [] ||
    match path[0]
    case Key(k) => j.Obj? && k in j.fields && Has(j.fields[k], path[1..])
    case Item(i) => j.Arr? && i < |j.items| && Has(j.items[i], path[1..])
  }

  function At(j: Json, path: seq<Step>): Json
    requires Has(j, path)
    decreases |path|
  {
    if path == [] then j
    else match path[0]
      case Key(k) => At(j.fields[k], path[1..])
      case Item(i) => At(j.items[i], path[1..])
  }

  /** The path ends in an identifier, under any key that names one, and nothing above it is replaced. */
  predicate EndsInId(py: Py, j: Json, path: seq<Step>)
    requires Has(j, path)
    decreases |path|
  {
    path != [] &&
    match path[0]
    case Key(k) =>
      if Replaced(py, k, j.fields[k]) then |path| == 1 && RoleOf(k).Identifier?
      else EndsInId(py, j.fields[k], path[1..])
    case Item(i) => EndsInId(py, j.items[i], path[1..])
  }

  /** Wherever an identifier stands in a scrubbed tree, it becomes a function of its own value alone. */
  lemma {:induction false} IdentifierBecomes(py: Py, j: Json, path: seq<Step>, id: Identity)
    requires Scrubs(py, j) && Has(j, path) && EndsInId(py, j, path)
    ensures At(j, path).Str? && Has(Scrub(py, j, id), path)
    ensures At(Scrub(py, j, id), path) == Str(FakeUuid(py, At(j, path).s))
    decreases |path|
  {
    hide RoleOf, FakeUuid, AnswerScrubs, AnswerText;
    match path[0] {
      case Key(k) =>
        if Replaced(py, k, j.fields[k]) {
          assert path[1..] == [];
          assert Scrub(py, j, id).fields[k] == FakeUuidOf(py, j.fields[k]);
        } else {
          assert Scrub(py, j, id).fields[k] == Scrub(py, j.fields[k], id);
          IdentifierBecomes(py, j.fields[k], path[1..], id);
        }
      case Item(i) => IdentifierBecomes(py, j.items[i], path[1..], id);
    }
  }

  /** The hash does not mix up these two identifiers, and is hexadecimal. */
  predicate KeepsApart(py: Py, v: string, w: string) {
    var h, g := Take(py.sha256("uuid:" + v), 32), Take(py.sha256("uuid:" + w), 32);
    && |h| == |g| == 32 && '-' !in h && '-' !in g
    && (h == g ==> v == w)
  }

  /** Dashed or not, empty or not, the shape of a fake identifier loses nothing of the hash. */
  lemma FakeUuidKeepsApart(py: Py, v: string, w: string)
    requires KeepsApart(py, v, w)
    ensures FakeUuid(py, v) == FakeUuid(py, w) <==> v == w
  {
    var h, g := Take(py.sha256("uuid:" + v), 32), Take(py.sha256("uuid:" + w), 32);
    hide Take;
    if v != "" { FakeUuidShape(py, v); }
    if w != "" { FakeUuidShape(py, w); }
    DashedInjective(h, g);
    hide Dashed;
  }

  lemma DashedInjective(h: string, g: string)
    requires |h| == |g| == 32
    ensures Dashed(h) == Dashed(g) ==> h == g
    ensures |Dashed(h)| == |Dashed(g)| == 36
  {
    DashedInverse(h);
    DashedInverse(g);
    hide Dashed;
  }

  lemma DashedInverse(h: string)
    requires |h| == 32
    ensures |Dashed(h)| == 36
    ensures var d := Dashed(h); h == d[..8] + d[9..13] + d[14..18] + d[19..23] + d[24..]
  {
    assert h == h[..8] + h[8..12] + h[12..16] + h[16..20] + h[20..32];
  }

  function Dashed(h: string): string
    requires |h| == 32
  {
    h[..8] + "-" + h[8..12] + "-" + h[12..16] + "-" + h[16..20] + "-" + h[20..32]
  }

  lemma FakeUuidShape(py: Py, v: string)
    requires v != "" && |Take(py.sha256("uuid:" + v), 32)| == 32
    ensures var h := Take(py.sha256("uuid:" + v), 32);
      FakeUuid(py, v) == if '-' in v then Dashed(h) else h
  {
  }

  /**
   Two identifiers anywhere in two scrubbed trees, belonging to different people, are equal in the fixture exactly
   when they were.
   */
  lemma SharedIdentifiers(py: Py, a: Json, p: seq<Step>, ida: Identity, b: Json, q: seq<Step>, idb: Identity)
    requires Scrubs(py, a) && Has(a, p) && EndsInId(py, a, p)
    requires Scrubs(py, b) && Has(b, q) && EndsInId(py, b, q)
    requires At(a, p).Str? && At(b, q).Str? && KeepsApart(py, At(a, p).s, At(b, q).s)
    ensures Has(Scrub(py, a, ida), p) && Has(Scrub(py, b, idb), q)
    ensures At(Scrub(py, a, ida), p) == At(Scrub(py, b, idb), q) <==> At(a, p) == At(b, q)
  {
    IdentifierBecomes(py, a, p, ida);
    IdentifierBecomes(py, b, q, idb);
    FakeUuidKeepsApart(py, At(a, p).s, At(b, q).s);
    hide Scrub, FakeUuid, KeepsApart;
  }
}
