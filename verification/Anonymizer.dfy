/**
 The fixture anonymiser, testdata/anonymize.py, on JSON trees.

 SHA-256 and the pools of placeholder names are parameters: all that matters is that they are
 functions of their arguments. A rewrite that Python would abort with an exception is not
 `Scrubs`; nothing is claimed about its result.
 */
module Anonymizer {
  import opened Strings
  import opened Decimals
  import opened GoJson
  import opened Payload

  datatype Identity = Identity(first: string, last: string, email: string, company: string)

  datatype Py = Py(
    sha256: string -> string,       // hex digest
    str: Json -> string,            // str(value)
    nonzero: string -> bool,        // truth of a number literal
    person: string -> Identity,
    phone: string -> string)        // fake_phone

  // ---- Python ----

  function Take(s: string, n: nat): string {
    if n <= |s| then s[..n] else s
  }

  function Slice(s: string, from: nat, to: nat): string
    requires from <= to
  {
    Take(s, to)[|Take(s, from)|..]
  }

  function Upper(s: string): string {
    seq(|s|, i requires 0 <= i < |s| => if 'a' <= s[i] <= 'z' then s[i] - 32 as char else s[i])
  }

  predicate Truthy(py: Py, j: Json) {
    match j
    case Null => false
    case Bool(b) => b
    case Num(text) => py.nonzero(text)
    case Str(s) => s != ""
    case Arr(items) => items != []
    case Obj(fields) => fields != map[]
  }

  // ---- identifiers ----

  /** A fake identifier, a function of the original value alone, dashed when the original is. */
  function FakeUuid(py: Py, value: string): string {
    if value == "" then ""
    else
      var h := Take(py.sha256("uuid:" + value), 32);
      if '-' in value then
        Slice(h, 0, 8) + "-" + Slice(h, 8, 12) + "-" + Slice(h, 12, 16)
        + "-" + Slice(h, 16, 20) + "-" + Slice(h, 20, 32)
      else h
  }

  function FakeUuidOf(py: Py, j: Json): Json {
    if j.Str? then Str(FakeUuid(py, j.s)) else j
  }

  // ---- which keys are rewritten ----

  datatype Role =
    | Identifier | FirstName | LastName | FullName | Email | Phone | Company
    | Code | DownloadUrl | FreeText | SecondaryText | Plain

  function RoleOf(key: string): Role {
    if Contains(key, "uuid") then Identifier
    else if key == "first_name" then FirstName
    else if key == "last_name" then LastName
    else if key == "full_name" || key == "name" then FullName
    else if key == "email" then Email
    else if key == "phone" then Phone
    else if key == "company_name" || key == "business_name" then Company
    else if key == "code" then Code
    else if key == "ticket_download_absolute_url" then DownloadUrl
    else if key == "answer_value" then FreeText
    else if key == "answer_value_secondary" then SecondaryText
    else Plain
  }

  /** Whether the value under the key is replaced as a whole, rather than searched further down. */
  predicate Replaced(py: Py, key: string, value: Json) {
    match RoleOf(key)
    case Identifier => value.Str?
    case FreeText => Truthy(py, value)
    case SecondaryText => Truthy(py, value)
    case Plain => false
    case _ => true
  }

  function Get(fields: map<string, Json>, key: string): Json {
    if key in fields then fields[key] else Str("")
  }

  predicate MailHeading(heading: Json) {
    heading.Str? && Contains(ToLower(heading.s), "mail")
  }

  /** The answer_value branch does not raise: lower() and startswith() only meet strings. */
  predicate AnswerScrubs(variation: Json, heading: Json) {
    variation == Str("EMAIL") ||
    (heading.Str? && (MailHeading(heading) || variation.Str?))
  }

  function AnswerText(variation: Json, heading: Json, id: Identity): string {
    if variation == Str("EMAIL") || MailHeading(heading) then id.email
    else if variation == Str("COMPANY") then id.company
    else if variation.Str? && "NAME" <= variation.s then id.first + " " + id.last
    else ""
  }

  function Replacement(py: Py, fields: map<string, Json>, key: string, value: Json, id: Identity): Json {
    match RoleOf(key)
    case Identifier => FakeUuidOf(py, value)
    case FirstName => Str(id.first)
    case LastName => Str(id.last)
    case FullName => Str(id.first + " " + id.last)
    case Email => Str(id.email)
    case Phone => if Truthy(py, value) then Str(py.phone(id.email)) else value
    case Company => if Truthy(py, value) then Str(id.company) else value
    case Code => Str("CODE" + Upper(Take(py.sha256(py.str(value)), 8)))
    case DownloadUrl => Str("https://example.invalid/tickets/" + FakeUuid(py, py.str(value)))
    case FreeText => Str(AnswerText(Get(fields, "variation"), Get(fields, "question_heading"), id))
    case SecondaryText => Str("")
    case Plain => value
  }

  // ---- scrub ----

  predicate Scrubs(py: Py, j: Json) {
    match j
    case Arr(items) => forall i | 0 <= i < |items| :: Scrubs(py, items[i])
    case Obj(fields) =>
      forall k | k in fields ::
        if Replaced(py, k, fields[k])
        then RoleOf(k).FreeText? ==> AnswerScrubs(Get(fields, "variation"), Get(fields, "question_heading"))
        else Scrubs(py, fields[k])
    case _ => true
  }

  function Scrub(py: Py, j: Json, id: Identity): Json {
    match j
    case Arr(items) => Arr(seq(|items|, i requires 0 <= i < |items| => Scrub(py, items[i], id)))
    case Obj(fields) =>
      Obj(map k | k in fields ::
        if Replaced(py, k, fields[k]) then Replacement(py, fields, k, fields[k], id) else Scrub(py, fields[k], id))
    case _ => j
  }

  // ---- main ----

  function TicketsBefore(orders: seq<Json>, i: nat): nat
    requires i <= |orders|
  {
    if i == 0 then 0 else TicketsBefore(orders, i - 1) + |TicketItems(orders[i - 1])|
  }

  function TicketId(i: nat, j: nat): Json {
    Num(NatText(8000000 + i * 100 + j))
  }

  /** A ticket before scrubbing: renumbered, and from the third one on without the repeated arrays. */
  function Prepared(t: Json, i: nat, j: nat, verbose: bool): Json
    requires t.Obj?
  {
    var fields := t.fields["id" := TicketId(i, j)];
    Obj(if verbose then fields else fields - {"answers", "questions"})
  }

  function Attendee(py: Py, i: nat, j: nat): Identity {
    py.person("order" + NatText(i) + "-ticket" + NatText(j))
  }

  function Buyer(py: Py, i: nat): Identity {
    py.person("order" + NatText(i))
  }

  function OrderId(py: Py, i: nat): Json {
    Str("mH" + Upper(Take(py.sha256("order" + NatText(i)), 8)))
  }

  predicate TicketScrubs(py: Py, t: Json, i: nat, j: nat, verbose: bool) {
    t.Obj? && Scrubs(py, Prepared(t, i, j, verbose))
  }

  function ScrubTicket(py: Py, t: Json, i: nat, j: nat, verbose: bool): Json
    requires t.Obj?
  {
    Scrub(py, Prepared(t, i, j, verbose), Attendee(py, i, j))
  }

  /** Only the first two tickets of the payload keep the repeated arrays. */
  predicate Verbose(before: nat, j: nat) {
    before + j < 2
  }

  /** `order.get("tickets") or []` can be iterated: falsy, or a list. */
  predicate Iterable(py: Py, j: Json) {
    j.Arr? || !Truthy(py, j)
  }

  predicate OrderScrubs(py: Py, o: Json, i: nat, before: nat) {
    && o.Obj?
    && Scrubs(py, Prop(o, "address")) && Scrubs(py, Prop(o, "order_lines"))
    && Scrubs(py, Prop(o, "discount")) && Scrubs(py, Prop(o, "payment_method"))
    && Iterable(py, Prop(o, "tickets"))
    && forall j | 0 <= j < |TicketItems(o)| :: TicketScrubs(py, TicketItems(o)[j], i, j, Verbose(before, j))
  }

  /** The keys of an order that main looks at. Everything else in the order is copied. */
  function OrderKeys(): set<string> {
    {"uuid", "order_id", "address", "order_lines", "discount", "payment_method", "tickets"}
  }

  function ScrubTickets(py: Py, o: Json, i: nat, before: nat): Json
    requires OrderScrubs(py, o, i, before)
  {
    var tickets := TicketItems(o);
    if tickets == [] then Prop(o, "tickets")
    else Arr(seq(|tickets|, j requires 0 <= j < |tickets| => ScrubTicket(py, tickets[j], i, j, Verbose(before, j))))
  }

  function ScrubOrder(py: Py, o: Json, i: nat, before: nat): Json
    requires OrderScrubs(py, o, i, before)
  {
    Obj(map k | k in o.fields.Keys + {"order_id"} ::
      if k == "order_id" then OrderId(py, i)
      else if k == "uuid" then FakeUuidOf(py, o.fields[k])
      else if k == "tickets" then ScrubTickets(py, o, i, before)
      else if k in OrderKeys() then Scrub(py, o.fields[k], Buyer(py, i))
      else o.fields[k])
  }

  predicate DataScrubs(py: Py, data: Json) {
    && data.Obj?
    && ("orders" in data.fields ==> data.fields["orders"].Arr? || EmptyIterable(data.fields["orders"]))
    && var orders := OrderItems(data);
       forall i | 0 <= i < |orders| :: OrderScrubs(py, orders[i], i, TicketsBefore(orders, i))
  }

  /** `enumerate` of an empty string or dict: no orders. Of null or a number it raises. */
  predicate EmptyIterable(j: Json) {
    j == Str("") || j == Obj(map[])
  }

  function ScrubData(py: Py, data: Json): Json
    requires DataScrubs(py, data)
  {
    var orders := OrderItems(data);
    Obj(map k | k in data.fields.Keys + {"uuid"} ::
      if k == "uuid" then FakeUuidOf(py, Prop(data, "uuid"))
      else if k == "orders" && orders != [] then
        Arr(seq(|orders|, i requires 0 <= i < |orders| => ScrubOrder(py, orders[i], i, TicketsBefore(orders, i))))
      else data.fields[k])
  }
}
