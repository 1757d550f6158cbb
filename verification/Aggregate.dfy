/**
 The aggregation of internal/aggregate/summary.go.

 Arithmetic is a parameter: `Arith` names the five float64 operations Summarise performs.
 Nothing is assumed about them here, so what is proved holds bit for bit for whichever
 arithmetic the machine has. SummaryLaws.dfy instantiates it with exact reals.
 */
module Aggregate {
  import opened Wrappers
  import opened Strings
  import opened Sizes
  import opened TicketButler

  datatype Arith<!F> = Arith(
    zero: F,
    one: F,
    add: (F, F) -> F,
    div: (F, F) -> F,
    eq: (F, F) -> bool,
    lt: (F, F) -> bool)

  const SCHEMA_VERSION := 1

  // The names are functions, not constants, so that only proofs about them see their letters.
  function GroupFree(): string { "Sponsors and other free tickets" }
  function GroupDiscounted(): string { "Discounted" }
  function TShirtQuestion(): string { "T-Shirt Size" }
  function Separator(): string { " - " }

  datatype Options = Options(merchPatterns: seq<string>, sponsorPks: seq<int>)

  datatype TicketGroup<+F> = TicketGroup(count: nat, incomeExVat: F)

  datatype Summary<+F> = Summary(
    schemaVersion: int,
    eventUuid: string,
    orders: nat,
    tickets: nat,
    ordersByState: map<string, nat>,
    ticketGroups: map<string, TicketGroup<F>>,
    tshirts: SizeCounts,
    merch: map<string, SizeCounts>)

  /** Reading a missing map key yields the zero value. */
  function Lookup<V>(m: map<string, V>, k: string, zero: V): V {
    if k in m then m[k] else zero
  }

  // ---- merchandise names ----

  predicate Matches(lower: string, pattern: string) {
    pattern != "" && Contains(lower, pattern)
  }

  predicate IsMerch(name: string, patterns: seq<string>) {
    exists i | 0 <= i < |patterns| :: Matches(ToLower(name), patterns[i])
  }

  /** Product and normalised size of a merchandise name; a name without a size keeps its whole name. */
  function ProductAndSize(name: string): (string, string) {
    var parts := Split(name, Separator());
    var n := |parts| - 1;
    if n < 1 then (name, "") else (Trim(Join(parts[..n], Separator())), NormalizeSize(parts[n]))
  }

  method SplitMerch(name: string, patterns: seq<string>) returns (product: string, size: string, isMerch: bool)
    ensures isMerch <==> IsMerch(name, patterns)
    ensures isMerch <==> exists k | 0 <= k < |patterns| :: patterns[k] != "" && Contains(ToLower(name), patterns[k])
    ensures (product, size) == if isMerch then ProductAndSize(name) else (name, "")
  {
    var lower := ToLower(name);
    isMerch := false;
    for i := 0 to |patterns|
      invariant !isMerch && forall k | 0 <= k < i :: !Matches(lower, patterns[k])
    {
      if Matches(lower, patterns[i]) {
        isMerch := true;
        break;
      }
    }
    if !isMerch {
      return name, "", false;
    }
    var parts := Split(name, Separator());
    if |parts| < 2 {
      return name, "", true;
    }
    product := Trim(Join(parts[..|parts| - 1], Separator()));
    return product, NormalizeSize(parts[|parts| - 1]), true;
  }

  /**
   The two halves a merchandise name is cut into. Together with the separator they rebuild the
   name exactly, the second half holds no separator, and product and size are the two halves cleaned up.
   */
  lemma SplitRebuildsName(name: string) returns (left: string, right: string)
    requires Contains(name, Separator())
    ensures name == left + Separator() + right
    ensures !Contains(right, Separator())
    ensures ProductAndSize(name) == (Trim(left), NormalizeSize(right))
  {
    var parts := Split(name, Separator());
    var n := |parts| - 1;
    SplitOffLast(name, Separator());
    left, right := Join(parts[..n], Separator()), parts[n];
  }

  /** Without a separator the name is kept whole and no size is tallied. */
  lemma NoSeparatorKeepsName(name: string)
    ensures !Contains(name, Separator()) ==> ProductAndSize(name) == (name, "")
  {
    SplitSingle(name, Separator());
  }

  // ---- one ticket ----

  /** What one ticket adds to the summary. */
  datatype Line<+F> = Line(
    group: string,                        // the ticket group it is finally counted under
    merch: Option<(string, SizeCounts)>,  // product and size, when the name carries both
    tshirt: SizeCounts,                   // the T-shirt it asked for, if of a known size
    income: F)                            // its income excluding VAT

  /** The ticket type name with a merchandise size taken off. */
  function CleanName(name: string, patterns: seq<string>): string {
    if IsMerch(name, patterns) then ProductAndSize(name).0 else name
  }

  /** What a merchandise name is tallied under; an unknown size still records the product. */
  function MerchOf(name: string, patterns: seq<string>): Option<(string, SizeCounts)> {
    var (product, size) := ProductAndSize(name);
    if IsMerch(name, patterns) && size != "" then Some((product, One(SizeOf(size)))) else None
  }

  /** The garment a T-shirt answer asks for. */
  function AnswerTally(a: Answer): SizeCounts {
    One(SizeOf(NormalizeSize(FirstChoice(a))))
  }

  function TshirtOf(answers: seq<Answer>): SizeCounts {
    match FirstAnswer(answers, TShirtQuestion())
    case Some(a) => AnswerTally(a)
    case None => NONE
  }

  /** Free and discounted tickets are regrouped, after the name was cleaned. */
  function Regroup<F>(ar: Arith<F>, clean: string, income: F, price: F): string {
    if ar.eq(income, ar.zero) then GroupFree()
    else if ar.lt(income, price) then GroupDiscounted()
    else clean
  }

  function ExVat<F>(ar: Arith<F>, exempt: bool, rate: F, income: F): F {
    if exempt then income else ar.div(income, ar.add(ar.one, rate))
  }

  function LineOf<F>(ar: Arith<F>, opts: Options, order: Order<F>, ticket: Ticket<F>): Line<F> {
    Line(Regroup(ar, CleanName(ticket.typeName, opts.merchPatterns), ticket.priceTotal, ticket.price),
         MerchOf(ticket.typeName, opts.merchPatterns),
         TshirtOf(ticket.answers),
         ExVat(ar, order.vatExempt, order.vatRate, ticket.priceTotal))
  }

  // ---- the whole payload, as a fold ----

  function Empty<F>(uuid: string): Summary<F> {
    Summary(SCHEMA_VERSION, uuid, 0, 0, map[], map[], NONE, map[])
  }

  function CountOrder<F>(s: Summary<F>, state: string): Summary<F> {
    s.(orders := s.orders + 1, ordersByState := s.ordersByState[state := Lookup(s.ordersByState, state, 0) + 1])
  }

  function PostMerch(m: map<string, SizeCounts>, merch: Option<(string, SizeCounts)>): map<string, SizeCounts> {
    match merch
    case None => m
    case Some((product, size)) => m[product := Lookup(m, product, NONE).Plus(size)]
  }

  function PostGroup<F>(ar: Arith<F>, m: map<string, TicketGroup<F>>, group: string, income: F)
    : map<string, TicketGroup<F>>
  {
    var row := Lookup(m, group, TicketGroup(0, ar.zero));
    m[group := TicketGroup(row.count + 1, ar.add(row.incomeExVat, income))]
  }

  function Post<F>(ar: Arith<F>, s: Summary<F>, line: Line<F>): Summary<F> {
    s.(tickets := s.tickets + 1,
       merch := PostMerch(s.merch, line.merch),
       tshirts := s.tshirts.Plus(line.tshirt),
       ticketGroups := PostGroup(ar, s.ticketGroups, line.group, line.income))
  }

  function PostLines<F>(ar: Arith<F>, s: Summary<F>, lines: seq<Line<F>>): Summary<F> {
    if lines == [] then s else Post(ar, PostLines(ar, s, lines[..|lines| - 1]), lines[|lines| - 1])
  }

  function OrderLines<F>(ar: Arith<F>, opts: Options, order: Order<F>): (lines: seq<Line<F>>)
    ensures |lines| == |order.tickets|
  {
    seq(|order.tickets|, i requires 0 <= i < |order.tickets| => LineOf(ar, opts, order, order.tickets[i]))
  }

  function PostOrder<F>(ar: Arith<F>, opts: Options, s: Summary<F>, order: Order<F>): Summary<F> {
    PostLines(ar, CountOrder(s, order.state), OrderLines(ar, opts, order))
  }

  function PostOrders<F>(ar: Arith<F>, opts: Options, s: Summary<F>, orders: seq<Order<F>>): Summary<F> {
    if orders == [] then s
    else PostOrder(ar, opts, PostOrders(ar, opts, s, orders[..|orders| - 1]), orders[|orders| - 1])
  }

  function SummaryOf<F>(ar: Arith<F>, opts: Options, resp: Orders<F>): Summary<F> {
    PostOrders(ar, opts, Empty(resp.uuid), resp.orders)
  }

  lemma PostNextOrder<F>(ar: Arith<F>, opts: Options, s: Summary<F>, orders: seq<Order<F>>, i: nat)
    requires i < |orders|
    ensures PostOrders(ar, opts, s, orders[..i + 1])
         == PostLines(ar, CountOrder(PostOrders(ar, opts, s, orders[..i]), orders[i].state),
                      OrderLines(ar, opts, orders[i]))
  {
    assert orders[..i + 1][..i] == orders[..i];
  }

  // ---- the nested loops ----

  method Summarise<F>(ar: Arith<F>, resp: Orders<F>, opts: Options) returns (s: Summary<F>)
    ensures s == SummaryOf(ar, opts, resp)
    ensures s.schemaVersion == 1 && s.eventUuid == resp.uuid && s.orders == |resp.orders|
  {
    hide OrderLines, PostLines;
    s := Empty(resp.uuid);
    ghost var start := s;
    for i := 0 to |resp.orders|
      invariant s == PostOrders(ar, opts, start, resp.orders[..i])
      invariant s.schemaVersion == 1 && s.eventUuid == resp.uuid && s.orders == i
    {
      PostNextOrder(ar, opts, start, resp.orders, i);
      var order := resp.orders[i];
      s := s.(orders := s.orders + 1,
              ordersByState := s.ordersByState[order.state := Lookup(s.ordersByState, order.state, 0) + 1]);
      assert s == CountOrder(PostOrders(ar, opts, start, resp.orders[..i]), order.state);
      s := AddTickets(ar, s, order, opts);
    }
    assert resp.orders[..|resp.orders|] == resp.orders;
  }

  /** The inner loop: every ticket of one order. */
  method AddTickets<F>(ar: Arith<F>, s0: Summary<F>, order: Order<F>, opts: Options) returns (s: Summary<F>)
    ensures s == PostLines(ar, s0, OrderLines(ar, opts, order))
    ensures s.schemaVersion == s0.schemaVersion && s.eventUuid == s0.eventUuid && s.orders == s0.orders
  {
    hide PostLines, Post, CleanName, MerchOf, PostMerch, TshirtOf, Regroup, ExVat, PostGroup;
    s := s0;
    ghost var lines := OrderLines(ar, opts, order);
    NoLines(ar, s0, lines[..0]);
    for j := 0 to |order.tickets|
      invariant s == PostLines(ar, s0, lines[..j])
      invariant s.schemaVersion == s0.schemaVersion && s.eventUuid == s0.eventUuid && s.orders == s0.orders
    {
      NextLine(ar, s0, lines, j);
      ghost var before := s;
      var ticket := order.tickets[j];
      s := s.(tickets := s.tickets + 1);
      var group;
      s, group := AddMerch(s, ticket, opts);
      s := AddTshirt(s, ticket);
      s := AddIncome(ar, s, order, ticket, group);
      TicketPosted(ar, opts, before, order, ticket, s);
    }
    assert lines[..|lines|] == lines;
  }

  lemma NoLines<F>(ar: Arith<F>, s: Summary<F>, lines: seq<Line<F>>)
    requires lines == []
    ensures PostLines(ar, s, lines) == s
  {
  }

  lemma NextLine<F>(ar: Arith<F>, s: Summary<F>, lines: seq<Line<F>>, j: nat)
    requires j < |lines|
    ensures PostLines(ar, s, lines[..j + 1]) == Post(ar, PostLines(ar, s, lines[..j]), lines[j])
  {
    assert lines[..j + 1][..j] == lines[..j];
  }

  /** The steps of the inner loop, put together. */
  lemma TicketPosted<F>(ar: Arith<F>, opts: Options, before: Summary<F>, order: Order<F>, t: Ticket<F>,
      after: Summary<F>)
    requires after == before.(
      tickets := before.tickets + 1,
      merch := PostMerch(before.merch, MerchOf(t.typeName, opts.merchPatterns)),
      tshirts := before.tshirts.Plus(TshirtOf(t.answers)),
      ticketGroups := PostGroup(ar, before.ticketGroups,
                                Regroup(ar, CleanName(t.typeName, opts.merchPatterns), t.priceTotal, t.price),
                                ExVat(ar, order.vatExempt, order.vatRate, t.priceTotal)))
    ensures after == Post(ar, before, LineOf(ar, opts, order, t))
  {
    hide CleanName, MerchOf, PostMerch, TshirtOf, Regroup, ExVat, PostGroup;
  }

  /** Cleans the ticket name and tallies a merchandise size. */
  method AddMerch<F>(s0: Summary<F>, ticket: Ticket<F>, opts: Options) returns (s: Summary<F>, group: string)
    ensures group == CleanName(ticket.typeName, opts.merchPatterns)
    ensures s == s0.(merch := PostMerch(s0.merch, MerchOf(ticket.typeName, opts.merchPatterns)))
  {
    s, group := s0, ticket.typeName;
    var name, size, isMerch := SplitMerch(group, opts.merchPatterns);
    if isMerch {
      group := name;
      if size != "" {
        var counts := new SizeTally(Lookup(s.merch, name, NONE));
        var _ := counts.Add(size);
        s := s.(merch := s.merch[name := counts.Counts()]);
      }
    }
  }

  /** Tallies the first T-shirt answer. */
  method AddTshirt<F>(s0: Summary<F>, ticket: Ticket<F>) returns (s: Summary<F>)
    ensures s == s0.(tshirts := s0.tshirts.Plus(TshirtOf(ticket.answers)))
  {
    hide One, SizeOf, NormalizeSize, FirstAnswer;
    s := s0;
    var answer := AnswerFor(ticket, TShirtQuestion());
    if answer.Some? {
      var tally := new SizeTally(s.tshirts);
      var _ := tally.Add(NormalizeSize(FirstChoice(answer.value)));
      s := s.(tshirts := tally.Counts());
    }
    assert s0.tshirts.Plus(NONE) == s0.tshirts;
  }

  /** Regroups, takes VAT off and books the income. */
  method AddIncome<F>(ar: Arith<F>, s0: Summary<F>, order: Order<F>, ticket: Ticket<F>, clean: string)
    returns (s: Summary<F>)
    ensures s == s0.(ticketGroups := PostGroup(ar, s0.ticketGroups,
                       Regroup(ar, clean, ticket.priceTotal, ticket.price),
                       ExVat(ar, order.vatExempt, order.vatRate, ticket.priceTotal)))
  {
    s := s0;
    var group, income, price := clean, ticket.priceTotal, ticket.price;
    if ar.eq(income, ar.zero) {
      group := GroupFree();
    } else if ar.lt(income, price) {
      group := GroupDiscounted();
    }
    if !order.vatExempt {
      income := ar.div(income, ar.add(ar.one, order.vatRate));
    }
    var row := Lookup(s.ticketGroups, group, TicketGroup(0, ar.zero));
    row := row.(count := row.count + 1);
    row := row.(incomeExVat := ar.add(row.incomeExVat, income));
    s := s.(ticketGroups := s.ticketGroups[group := row]);
  }
}
