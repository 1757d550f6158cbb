/**
 What stands in the fixture where a person's data stood: below a ticket the data of that ticket's own made-up
 attendee, below the scrubbed fields of an order those of its made-up buyer, under each key by name.
 */
module FixturePersons {
  import opened Strings
  import opened Decimals
  import opened GoJson
  import opened Payload
  import opened Anonymizer
  import opened FixtureFidelity
  import opened FixturePrivacy
  import opened FixtureScript
  import opened FixtureIds

  // ---- under which key stands what ----

  function FullNameOf(id: Identity): Json {
    Str(id.first + " " + id.last)
  }

  /** What may stand under a key in the data of this person. */
  predicate Stands(py: Py, key: string, v: Json, id: Identity) {
    && StandsForName(key, v, id)
    && StandsForDetail(py, key, v, id)
    && StandsForAnswer(py, key, v, id)
    && StandsForPointer(key, v)
  }

  predicate StandsForPointer(key: string, v: Json) {
    && (key == "code" ==> v.Str? && |v.s| <= 12 && "CODE" <= v.s)
    && (key == "ticket_download_absolute_url" ==> v.Str? && "https://example.invalid/tickets/" <= v.s)
  }

  predicate StandsForName(key: string, v: Json, id: Identity) {
    && (key == "first_name" ==> v == Str(id.first))
    && (key == "last_name" ==> v == Str(id.last))
    && (key == "full_name" || key == "name" ==> v == FullNameOf(id))
    && (key == "email" ==> v == Str(id.email))
  }

  /** Details are made up where there were any; what was empty stays so. */
  predicate StandsForDetail(py: Py, key: string, v: Json, id: Identity) {
    && (key == "phone" ==> v == Str(py.phone(id.email)) || !Truthy(py, v))
    && (key == "company_name" || key == "business_name" ==> v == Str(id.company) || !Truthy(py, v))
  }

  /** An answer typed in is one of these, and a second answer is gone. */
  predicate StandsForAnswer(py: Py, key: string, v: Json, id: Identity) {
    && (key == "answer_value" ==>
          v == Str(id.email) || v == Str(id.company) || v == FullNameOf(id) || !Truthy(py, v))
    && (key == "answer_value_secondary" ==> !Truthy(py, v))
  }

  lemma NameRoles()
    ensures RoleOf("first_name") == FirstName && RoleOf("last_name") == LastName
    ensures RoleOf("full_name") == RoleOf("name") == FullName && RoleOf("email") == Email
  {
    hide Contains;
    NoUuid("first_name"); NoUuid("last_name"); NoUuid("full_name"); NoUuid("name"); NoUuid("email");
  }

  lemma DetailRoles()
    ensures RoleOf("phone") == Phone && RoleOf("company_name") == RoleOf("business_name") == Company
  {
    hide Contains;
    NoUuid("phone"); NoUuid("company_name"); NoUuid("business_name");
  }

  lemma AnswerRoles()
    ensures RoleOf("answer_value") == FreeText && RoleOf("answer_value_secondary") == SecondaryText
  {
    hide Contains;
    NoUuid("answer_value"); NoUuid("answer_value_secondary");
  }

  lemma PointerRoles()
    ensures RoleOf("code") == Code && RoleOf("ticket_download_absolute_url") == DownloadUrl
  {
    hide Contains;
    NoUuid("code"); NoUuid("ticket_download_absolute_url");
  }

  /** One field of an object, after scrubbing. */
  lemma NameStands(py: Py, fields: map<string, Json>, k: string, id: Identity)
    requires k in fields
    ensures StandsForName(k, Scrub(py, Obj(fields), id).fields[k], id)
  {
    NameRoles();
    hide RoleOf, FakeUuid, AnswerText, Get;
  }

  lemma DetailStands(py: Py, fields: map<string, Json>, k: string, id: Identity)
    requires k in fields
    ensures StandsForDetail(py, k, Scrub(py, Obj(fields), id).fields[k], id)
  {
    DetailRoles();
    hide RoleOf, FakeUuid, Get, AnswerText, Truthy;
  }

  lemma AnswerIsOneOf(variation: Json, heading: Json, id: Identity)
    ensures var text := AnswerText(variation, heading, id);
      text == id.email || text == id.company || text == id.first + " " + id.last || text == ""
  {
    hide MailHeading;
  }

  lemma AnswerStands(py: Py, fields: map<string, Json>, k: string, id: Identity)
    requires k in fields
    ensures StandsForAnswer(py, k, Scrub(py, Obj(fields), id).fields[k], id)
  {
    AnswerRoles();
    var out := Scrub(py, Obj(fields), id).fields[k];
    assert out == if Replaced(py, k, fields[k]) then Replacement(py, fields, k, fields[k], id)
                  else Scrub(py, fields[k], id);
    if !Truthy(py, fields[k]) { ScrubKeepsEmpty(py, fields[k], id); }
    AnswerIsOneOf(Get(fields, "variation"), Get(fields, "question_heading"), id);
    assert !Truthy(py, Str(""));
    hide RoleOf, FakeUuid, Get, Scrub, AnswerText, Truthy;
  }

  lemma ScrubKeepsEmpty(py: Py, v: Json, id: Identity)
    requires !Truthy(py, v)
    ensures Scrub(py, v, id) == v
  {
    if v == Obj(map[]) { assert Scrub(py, v, id).fields == map[]; }
    if v == Arr([]) { assert Scrub(py, v, id).items == []; }
  }

  /** A detail that was empty is left as it was. */
  lemma EmptyStays(py: Py, fields: map<string, Json>, k: string, id: Identity)
    requires k in fields && DescribesPerson(k) && !Truthy(py, fields[k])
    ensures Scrub(py, Obj(fields), id).fields[k] == fields[k]
  {
    RolesOfKeys(k);
    ScrubKeepsEmpty(py, fields[k], id);
    var out := Scrub(py, Obj(fields), id).fields[k];
    assert out == if Replaced(py, k, fields[k]) then Replacement(py, fields, k, fields[k], id)
                  else Scrub(py, fields[k], id);
    hide RoleOf, DescribesPerson, Truthy, Scrub, Get, AnswerText, FakeUuid;
  }

  lemma PointerStands(py: Py, fields: map<string, Json>, k: string, id: Identity)
    requires k in fields
    ensures StandsForPointer(k, Scrub(py, Obj(fields), id).fields[k])
  {
    PointerRoles();
    hide RoleOf, FakeUuid, AnswerText, Get;
  }

  lemma FieldStands(py: Py, fields: map<string, Json>, k: string, id: Identity)
    requires k in fields
    ensures Stands(py, k, Scrub(py, Obj(fields), id).fields[k], id)
  {
    hide Scrub, StandsForName, StandsForDetail, StandsForAnswer, StandsForPointer;
    AnswerStands(py, fields, k, id);
    NameStands(py, fields, k, id);
    DetailStands(py, fields, k, id);
    PointerStands(py, fields, k, id);
  }

  /** The path ends in a field. */
  predicate ToField(q: seq<Step>) {
    q != [] && q[|q| - 1].Key?
  }

  /** At any depth of a scrubbed tree. */
  lemma {:induction false} PersonStands(py: Py, j: Json, q: seq<Step>, id: Identity)
    requires ToField(q) && Has(Scrub(py, j, id), q)
    ensures Stands(py, q[|q| - 1].key, At(Scrub(py, j, id), q), id)
    decreases |q|
  {
    hide RoleOf, Replaced, Replacement, Stands, Get;
    match q[0] {
      case Item(i) => PersonStands(py, j.items[i], q[1..], id);
      case Key(k) =>
        if |q| == 1 {
          FieldStands(py, j.fields, k, id);
        } else if Replaced(py, k, j.fields[k]) {
          ReplacementIsLeaf(py, j.fields, k, id, q[1..]);
        } else {
          PersonStands(py, j.fields[k], q[1..], id);
        }
    }
  }

  /** What a typed answer becomes depends on the kind of question and on whether its heading speaks of mail. */
  lemma AnswerBecomes(py: Py, fields: map<string, Json>, id: Identity)
    requires "answer_value" in fields && Truthy(py, fields["answer_value"])
    ensures var out := Scrub(py, Obj(fields), id).fields["answer_value"];
      var kind, heading := Get(fields, "variation"), Get(fields, "question_heading");
      var mail := heading.Str? && Contains(ToLower(heading.s), "mail");
      && (mail || kind == Str("EMAIL") ==> out == Str(id.email))
      && (!mail && kind == Str("COMPANY") ==> out == Str(id.company))
      && (!mail && kind.Str? && "NAME" <= kind.s ==> out == FullNameOf(id))
      && (!mail && kind.Str? && !("NAME" <= kind.s) && kind.s != "EMAIL" && kind.s != "COMPANY" ==> out == Str(""))
  {
    AnswerRoles();
    hide RoleOf, Truthy, Get, ToLower, Contains;
    assert "EMAIL"[0] == 'E' && "COMPANY"[0] == 'C' && "NAME"[0] == 'N';
  }

  /**
   A typed answer stops the script exactly when it asks a heading or a kind that is no string for its letters:
   the heading of every answer but those of kind EMAIL, and the kind of those without mail in the heading.
   */
  lemma AnswerFailsIff(py: Py, fields: map<string, Json>)
    requires "answer_value" in fields && Truthy(py, fields["answer_value"])
    ensures var kind, heading := Get(fields, "variation"), Get(fields, "question_heading");
      var mail := heading.Str? && Contains(ToLower(heading.s), "mail");
      var fails := kind != Str("EMAIL") && (!heading.Str? || (!mail && !kind.Str?));
      && (fails ==> !Scrubs(py, Obj(fields)))
      && (!fails && (forall k | k in fields && k != "answer_value" :: KeyScrubs(py, fields, k)) ==>
            Scrubs(py, Obj(fields)))
  {
    AnswerRoles();
    hide RoleOf, Truthy, Get, ToLower, Contains;
  }

  // ---- the whole fixture ----

  function TicketPath(i: nat, j: nat): seq<Step> {
    [Key("orders"), Item(i), Key("tickets"), Item(j)]
  }

  /** A list in the fixture where the payload has one, element by element. */
  lemma OrderInFixture(py: Py, data: Json, p: seq<Step>)
    requires DataScrubs(py, data) && |p| > 2 && p[0] == Key("orders") && p[1].Item? && Has(ScrubData(py, data), p)
    ensures var orders, i := OrderItems(data), p[1].i;
      && i < |orders| && OrderScrubs(py, orders[i], i, TicketsBefore(orders, i))
      && var u := ScrubOrder(py, orders[i], i, TicketsBefore(orders, i));
         Has(u, p[2..]) && At(ScrubData(py, data), p) == At(u, p[2..])
  {
    var out := ScrubData(py, data);
    ListBelow(out, p);
    assert "orders" in data.fields;
    DataField(py, data, "orders");
    hide OrderScrubs, ScrubOrder, TicketsBefore, ScrubData, DataScrubs, Has, At;
  }

  lemma TicketInFixture(py: Py, o: Json, i: nat, before: nat, q: seq<Step>)
    requires OrderScrubs(py, o, i, before) && |q| > 2 && q[0] == Key("tickets") && q[1].Item?
    requires Has(ScrubOrder(py, o, i, before), q)
    ensures var tickets, j := TicketItems(o), q[1].i;
      && j < |tickets| && TicketScrubs(py, tickets[j], i, j, Verbose(before, j))
      && var u := ScrubTicket(py, tickets[j], i, j, Verbose(before, j));
         Has(u, q[2..]) && At(ScrubOrder(py, o, i, before), q) == At(u, q[2..])
  {
    ListBelow(ScrubOrder(py, o, i, before), q);
    TicketsOut(py, o, i, before);
    hide OrderScrubs, ScrubOrder, ScrubTicket, TicketScrubs, Has, At;
  }

  lemma TicketsOut(py: Py, o: Json, i: nat, before: nat)
    requires OrderScrubs(py, o, i, before) && "tickets" in ScrubOrder(py, o, i, before).fields
    ensures var out, tickets := ScrubOrder(py, o, i, before).fields["tickets"], TicketItems(o);
      && (out.Arr? ==> |out.items| == |tickets|)
      && forall j | 0 <= j < |tickets| ::
           && TicketScrubs(py, tickets[j], i, j, Verbose(before, j))
           && out.Arr? && out.items[j] == ScrubTicket(py, tickets[j], i, j, Verbose(before, j))
  {
    hide TicketScrubs, ScrubTicket, Scrubs, Scrub, RoleOf, FakeUuid;
  }

  lemma TicketStands(py: Py, o: Json, i: nat, before: nat, j: nat, q: seq<Step>)
    requires OrderScrubs(py, o, i, before) && ToField(q)
    requires Has(ScrubOrder(py, o, i, before), [Key("tickets"), Item(j)] + q)
    ensures Stands(py, q[|q| - 1].key, At(ScrubOrder(py, o, i, before), [Key("tickets"), Item(j)] + q),
                   Attendee(py, i, j))
  {
    var p := [Key("tickets"), Item(j)] + q;
    assert p[2..] == q;
    hide Stands, Scrub, Prepared, OrderScrubs, ScrubOrder, Attendee, Has, At;
    TicketInFixture(py, o, i, before, p);
    PersonStands(py, Prepared(TicketItems(o)[j], i, j, Verbose(before, j)), q, Attendee(py, i, j));
  }

  lemma BelowOrder(i: nat, j: nat, q: seq<Step>)
    ensures var p := TicketPath(i, j) + q;
      |p| > 2 && p[0] == Key("orders") && p[1] == Item(i) && p[2..] == [Key("tickets"), Item(j)] + q
  {
  }

  /**
   Every field at any depth below a ticket holds what belongs to that ticket's own attendee, under the key it has:
   below the j-th ticket of order i the person made from "order<i>-ticket<j>".
   */
  lemma AttendeeStands(py: Py, data: Json, i: nat, j: nat, q: seq<Step>)
    requires DataScrubs(py, data) && ToField(q) && Has(ScrubData(py, data), TicketPath(i, j) + q)
    ensures Stands(py, q[|q| - 1].key, At(ScrubData(py, data), TicketPath(i, j) + q),
                   py.person("order" + NatText(i) + "-ticket" + NatText(j)))
  {
    BelowOrder(i, j, q);
    assert Attendee(py, i, j) == py.person("order" + NatText(i) + "-ticket" + NatText(j));
    hide ScrubData, DataScrubs, Stands, OrderScrubs, ScrubOrder, Attendee, Has, At, TicketPath, NatText;
    OrderInFixture(py, data, TicketPath(i, j) + q);
    TicketStands(py, OrderItems(data)[i], i, TicketsBefore(OrderItems(data), i), j, q);
  }

  /** And below the scrubbed fields of an order, what belongs to its buyer, the person made from "order<i>". */
  lemma BuyerStands(py: Py, data: Json, i: nat, k: string, q: seq<Step>)
    requires DataScrubs(py, data) && ToField(q)
    requires k in {"address", "order_lines", "discount", "payment_method"}
    requires Has(ScrubData(py, data), [Key("orders"), Item(i), Key(k)] + q)
    ensures Stands(py, q[|q| - 1].key, At(ScrubData(py, data), [Key("orders"), Item(i), Key(k)] + q),
                   py.person("order" + NatText(i)))
  {
    var p := [Key("orders"), Item(i), Key(k)] + q;
    OrderInFixture(py, data, p);
    var o, before := OrderItems(data)[i], TicketsBefore(OrderItems(data), i);
    var u := ScrubOrder(py, o, i, before);
    FieldOut(py, o, i, before, k, p[2..]);
    HasField(u, p[2..]);
    assert p[2..][1..] == q;
    var id := Buyer(py, i);
    assert id == py.person("order" + NatText(i));
    hide ScrubData, DataScrubs, Stands, Scrub, OrderScrubs, ScrubOrder, Has, At;
    PersonStands(py, o.fields[k], q, id);
  }

  lemma FieldOut(py: Py, o: Json, i: nat, before: nat, k: string, q: seq<Step>)
    requires OrderScrubs(py, o, i, before) && q != [] && q[0] == Key(k) && Has(ScrubOrder(py, o, i, before), q)
    requires k in ScrubbedKeys()
    ensures k in o.fields && k in ScrubOrder(py, o, i, before).fields
    ensures ScrubOrder(py, o, i, before).fields[k] == Scrub(py, o.fields[k], Buyer(py, i))
  {
    hide Scrubs, Scrub, TicketScrubs, ScrubTickets, RoleOf;
    ScrubbedField(py, o, i, before, k);
  }

  // ---- numbers ----

  lemma OrderNumber(py: Py, o: Json, i: nat, before: nat)
    requires OrderScrubs(py, o, i, before)
    ensures Prop(ScrubOrder(py, o, i, before), "order_id")
         == Str("mH" + Upper(Take(py.sha256("order" + NatText(i)), 8)))
  {
    hide OrderScrubs, ScrubTickets, Scrub, FakeUuidOf, Upper, Take, NatText;
  }

  lemma TicketNumber(py: Py, t: Json, i: nat, j: nat, verbose: bool)
    requires t.Obj?
    ensures Prop(ScrubTicket(py, t, i, j, verbose), "id") == Num(NatText(8000000 + i * 100 + j))
  {
    IdIsPlain();
    hide RoleOf, NatText;
    var u := Prepared(t, i, j, verbose);
    assert u.fields["id"] == TicketId(i, j);
    assert !Replaced(py, "id", TicketId(i, j));
    assert Scrub(py, u, Attendee(py, i, j)).fields["id"] == Scrub(py, u.fields["id"], Attendee(py, i, j));
  }

  lemma TicketList(py: Py, o: Json, i: nat, before: nat, j: nat)
    requires OrderScrubs(py, o, i, before) && j < |TicketItems(o)|
    ensures var u := ScrubOrder(py, o, i, before);
      && TicketItems(o)[j].Obj? && |TicketItems(u)| == |TicketItems(o)|
      && TicketItems(u)[j] == ScrubTicket(py, TicketItems(o)[j], i, j, Verbose(before, j))
  {
    assert "tickets" in o.fields;
    TicketsOut(py, o, i, before);
    hide TicketScrubs, ScrubTicket, Scrubs, Scrub, RoleOf, FakeUuid;
  }

  lemma TicketNumbers(py: Py, o: Json, i: nat, before: nat)
    requires OrderScrubs(py, o, i, before)
    ensures var u := ScrubOrder(py, o, i, before);
      && |TicketItems(u)| == |TicketItems(o)|
      && forall j | 0 <= j < |TicketItems(o)| :: Prop(TicketItems(u)[j], "id") == Num(NatText(8000000 + i * 100 + j))
  {
    hide OrderScrubs, ScrubOrder, ScrubTicket, TicketItems, NatText, Prop;
    if TicketItems(o) == [] { NoTickets(py, o, i, before); } else { TicketList(py, o, i, before, 0); }
    forall j | 0 <= j < |TicketItems(o)|
      ensures Prop(TicketItems(ScrubOrder(py, o, i, before))[j], "id") == Num(NatText(8000000 + i * 100 + j))
    {
      TicketList(py, o, i, before, j);
      TicketNumber(py, TicketItems(o)[j], i, j, Verbose(before, j));
    }
  }

  /** Orders and tickets are numbered anew: by a hash of the order's place, and by both places. */
  lemma NumbersStand(py: Py, data: Json, i: nat)
    requires DataScrubs(py, data) && i < |OrderItems(data)|
    ensures var o, u := OrderItems(data)[i], OrderItems(ScrubData(py, data));
      && |u| == |OrderItems(data)|
      && Prop(u[i], "order_id") == Str("mH" + Upper(Take(py.sha256("order" + NatText(i)), 8)))
      && |TicketItems(u[i])| == |TicketItems(o)|
      && forall j | 0 <= j < |TicketItems(o)| :: Prop(TicketItems(u[i])[j], "id") == Num(NatText(8000000 + i * 100 + j))
  {
    var o, before := OrderItems(data)[i], TicketsBefore(OrderItems(data), i);
    OrderOut(py, data, i);
    hide OrderScrubs, ScrubOrder, DataScrubs, ScrubData, TicketItems, OrderItems, Upper, Take, NatText, Prop;
    OrderNumber(py, o, i, before);
    TicketNumbers(py, o, i, before);
  }

  lemma OrderOut(py: Py, data: Json, i: nat)
    requires DataScrubs(py, data) && i < |OrderItems(data)|
    ensures var o, before := OrderItems(data)[i], TicketsBefore(OrderItems(data), i);
      && OrderScrubs(py, o, i, before)
      && |OrderItems(ScrubData(py, data))| == |OrderItems(data)|
      && OrderItems(ScrubData(py, data))[i] == ScrubOrder(py, o, i, before)
  {
    DataField(py, data, "orders");
    hide OrderScrubs, ScrubOrder, TicketsBefore, ScrubData;
  }

  lemma NoTickets(py: Py, o: Json, i: nat, before: nat)
    requires OrderScrubs(py, o, i, before) && TicketItems(o) == []
    ensures TicketItems(ScrubOrder(py, o, i, before)) == []
  {
    hide Scrubs, Scrub, TicketScrubs, FakeUuidOf;
  }

  /** The first characters of a text, as many as there are. */
  lemma TakeIs(s: string, n: nat)
    ensures Take(s, n) <= s && |Take(s, n)| == if n <= |s| then n else |s|
  {
  }

  /** The small letters, and nothing else, become the capital letters. */
  lemma UpperLetters(s: string, k: nat)
    requires k < |s|
    ensures forall l | 0 <= l < 26 ::
      s[k] == "abcdefghijklmnopqrstuvwxyz"[l] ==> Upper(s)[k] == "ABCDEFGHIJKLMNOPQRSTUVWXYZ"[l]
    ensures s[k] !in "abcdefghijklmnopqrstuvwxyz" ==> Upper(s)[k] == s[k]
  {
    var small := "abcdefghijklmnopqrstuvwxyz";
    var l := if 'a' <= s[k] <= 'z' then s[k] as int - 'a' as int else 0;
    LetterAt(l);
    assert small[l] in small;
    forall l | 0 <= l < 26 && s[k] == small[l] ensures Upper(s)[k] == "ABCDEFGHIJKLMNOPQRSTUVWXYZ"[l] {
      LetterAt(l);
    }
  }

  // ---- no two tickets share a person's seed ----

  lemma NatTextInjective(i: nat, j: nat)
    ensures NatText(i) == NatText(j) <==> i == j
  {
    NatTextValue(i);
    NatTextValue(j);
  }

  lemma NoDash(i: nat)
    ensures '-' !in "order" + NatText(i)
  {
    assert forall k | 0 <= k < |NatText(i)| :: IsDigit(NatText(i)[k]);
  }

  /** Each ticket has an attendee of its own, and no attendee is a buyer. */
  lemma SeedsDiffer(i: nat, j: nat, k: nat, l: nat)
    ensures "order" + NatText(i) + "-ticket" + NatText(j) == "order" + NatText(k) + "-ticket" + NatText(l) <==>
      i == k && j == l
    ensures "order" + NatText(i) + "-ticket" + NatText(j) != "order" + NatText(k)
    ensures "order" + NatText(i) == "order" + NatText(k) <==> i == k
  {
    NoDash(i);
    NoDash(k);
    NatTextInjective(i, k);
    NatTextInjective(j, l);
    hide NatText;
    SeedCut("order" + NatText(i), NatText(j));
    SeedCut("order" + NatText(k), NatText(l));
    SeedTail("order", NatText(i));
    SeedTail("order", NatText(k));
    SeedTail("ticket", NatText(j));
    SeedTail("ticket", NatText(l));
  }

  lemma SeedCut(order: string, ticket: string)
    requires '-' !in order
    ensures var s := order + "-ticket" + ticket;
      '-' in s && IndexOf(s, "-") == |order| && s[..|order|] == order && s[|order| + 1..] == "ticket" + ticket
  {
    assert order + "-ticket" + ticket == order + "-" + ("ticket" + ticket);
    FirstCut(order, '-', "ticket" + ticket);
    hide IndexOf;
    assert (order + "-ticket" + ticket)[|order|] == '-';
  }

  lemma SeedTail(head: string, tail: string)
    ensures (head + tail)[|head|..] == tail
  {
  }
}
