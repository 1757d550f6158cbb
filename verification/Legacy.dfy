/**
 The old Apps Script aggregation, testdata/parity/legacy.js, run over the raw JSON payload,
 and its parity with the Go port.

 The script's objects are maps from property names. Its arithmetic is the same `Arith` the
 port is given, so "the same operations in the same order" is equality of results for every
 arithmetic, not agreement within a tolerance.
 */
module Legacy {
  import opened Wrappers
  import opened Strings
  import opened GoJson
  import opened Sizes
  import opened TicketButler
  import opened Aggregate
  import opened Sorting
  import opened SponsorList
  import opened Payload

  /** How the script reads numbers, parseFloat and a JSON literal, and the names its objects inherit. */
  datatype Js<!F> = Js(parseFloat: string -> F, number: string -> F, inherited: set<string>)

  function LegacyOptions(): Options {
    Options(["hoodie"], [183067])
  }

  // ---- payloads both implementations can read ----

  function AmountText(j: Json): string {
    if j.Num? then j.text else TextOf(j)
  }

  /** An amount with text, on which parseFloat and ParseFloat agree. */
  ghost predicate AmountAgrees<F>(n: Floats<F>, js: Js<F>, j: Json) {
    var text := AmountText(j);
    text != "" && text != "null" && n.parse(text) == Some(js.parseFloat(text))
  }

  ghost predicate AnswerReadable(a: Json) {
    a.Obj? && var choices := ItemsOf(Prop(a, "answered_choices")); choices != [] ==> choices[0].Obj?
  }

  function AnswerItems(t: Json): seq<Json> {
    ItemsOf(Prop(Prop(t, "ticket_answer_collection"), "answers"))
  }

  ghost predicate TicketReadable<F>(n: Floats<F>, js: Js<F>, t: Json) {
    && t.Obj? && Prop(t, "ticket_type_name").Str?
    && AmountAgrees(n, js, Prop(t, "price")) && AmountAgrees(n, js, Prop(t, "price_total"))
    && forall i | 0 <= i < |AnswerItems(t)| :: AnswerReadable(AnswerItems(t)[i])
  }

  ghost predicate RateReadable<F>(n: Floats<F>, js: Js<F>, o: Json) {
    FlagOf(Prop(o, "vat_exempt")) ||
    (Prop(o, "vat_rate").Num? && n.parse(Prop(o, "vat_rate").text) == Some(js.number(Prop(o, "vat_rate").text)))
  }

  // A lookup by an inherited name, such as "constructor", finds something that is not the script's own entry.

  /** The product and size a merchandise name is tallied under are not names every object has. */
  predicate MerchOwn(inherited: set<string>, name: string) {
    var (product, size) := ProductAndSize(name);
    IsMerch(name, ["hoodie"]) && size != "" ==> product !in inherited && size !in inherited
  }

  predicate AnswerOwn(inherited: set<string>, a: Answer) {
    Asks(a, TShirtQuestion()) ==> NormalizeSize(FirstChoice(a)) !in inherited
  }

  /** Nothing the script looks up for this ticket, its group, product or sizes, is an inherited name. */
  ghost predicate TicketOwn<F>(ar: Arith<F>, js: Js<F>, t: Ticket<F>) {
    && Regroup(ar, CleanName(t.typeName, ["hoodie"]), t.priceTotal, t.price) !in js.inherited
    && MerchOwn(js.inherited, t.typeName)
    && forall i | 0 <= i < |t.answers| :: AnswerOwn(js.inherited, t.answers[i])
  }

  ghost predicate OrderReadable<F>(ar: Arith<F>, n: Floats<F>, js: Js<F>, o: Json) {
    && o.Obj? && RateReadable(n, js, o)
    && forall i | 0 <= i < |TicketItems(o)| ::
         TicketReadable(n, js, TicketItems(o)[i]) && TicketOwn(ar, js, ReadTicket(n, TicketItems(o)[i]))
  }

  /** The script does not throw on the payload, looks up its own entries only, and both sides read the same numbers. */
  ghost predicate Readable<F>(ar: Arith<F>, n: Floats<F>, js: Js<F>, j: Json) {
    j.Obj? && forall i | 0 <= i < |OrderItems(j)| :: OrderReadable(ar, n, js, OrderItems(j)[i])
  }

  // ---- sizes ----

  /** The script's own normalizeSize; a missing choice reads as "". */
  function ScriptSize(size: string): string {
    if size == "" then "" else ScriptSpelling(ToLower(Trim(size)))
  }

  function ScriptSpelling(size: string): string {
    if size == "s" || size == "small" then "small"
    else if size == "m" || size == "medium" then "medium"
    else if size == "l" || size == "large" then "large"
    else if size == "xl" || size == "extra large" then "xl"
    else if size == "2xl" || size == "xxl" then "2xl"
    else if size == "3xl" || size == "xxxl" then "3xl"
    else size
  }

  lemma SpellingsAlike(size: string)
    ensures ScriptSpelling(size) == Canonical(size)
  {
  }

  /** The port reads every spelling as the script does. */
  lemma SizesReadAlike(size: string)
    ensures ScriptSize(size) == NormalizeSize(size)
  {
    SpellingsAlike(ToLower(Trim(size)));
    EmptySpelling();
    hide Trim, ToLower, ScriptSpelling, Canonical;
  }

  lemma EmptySpelling()
    ensures Canonical(ToLower(Trim(""))) == ""
  {
    assert Trim("") == "";
  }

  // ---- size objects ----

  /** A size tally as the script's object with one property per size. */
  function SizeObject(c: SizeCounts): map<string, nat> {
    map["small" := c.small, "medium" := c.medium, "large" := c.large, "xl" := c.xl, "2xl" := c.xxl, "3xl" := c.xxxl]
  }

  function MerchObject(m: map<string, SizeCounts>): map<string, map<string, nat>> {
    map p | p in m :: SizeObject(m[p])
  }

  /** `if (sizes[size] !== undefined) sizes[size] += 1`; what an object inherits is no number to add to. */
  function Bump(inherited: set<string>, sizes: map<string, nat>, size: string): map<string, nat>
    requires size in sizes || size !in inherited
  {
    if size in sizes then sizes[size := sizes[size] + 1] else sizes
  }

  function Increment(c: SizeCounts, size: Option<Size>): SizeCounts {
    match size
    case None => c
    case Some(Small) => c.(small := c.small + 1)
    case Some(Medium) => c.(medium := c.medium + 1)
    case Some(Large) => c.(large := c.large + 1)
    case Some(XL) => c.(xl := c.xl + 1)
    case Some(XXL) => c.(xxl := c.xxl + 1)
    case Some(XXXL) => c.(xxxl := c.xxxl + 1)
  }

  lemma PlusOne(c: SizeCounts, size: Option<Size>)
    ensures c.Plus(One(size)) == Increment(c, size)
  {
  }

  lemma BumpIsAdd(inherited: set<string>, c: SizeCounts, size: string)
    requires size !in inherited
    ensures Bump(inherited, SizeObject(c), size) == SizeObject(c.Plus(One(SizeOf(size))))
  {
    hide One;
    PlusOne(c, SizeOf(size));
  }

  // ---- the script's T-shirt tally: every matching answer, not only the first ----

  function LegacyTally(answers: seq<Answer>): SizeCounts {
    if answers == [] then NONE
    else
      var a := answers[|answers| - 1];
      var before := LegacyTally(answers[..|answers| - 1]);
      if Asks(a, TShirtQuestion()) then before.Plus(AnswerTally(a)) else before
  }

  /** A per-ticket tally of the answers, over all tickets. */
  function TallyAll<F>(ts: seq<Ticket<F>>, tally: seq<Answer> -> SizeCounts): SizeCounts {
    if ts == [] then NONE else TallyAll(ts[..|ts| - 1], tally).Plus(tally(ts[|ts| - 1].answers))
  }

  lemma TallyNone<F>(ts: seq<Ticket<F>>, tally: seq<Answer> -> SizeCounts)
    requires ts == []
    ensures TallyAll(ts, tally) == NONE
  {
  }

  lemma TallyOneMore<F>(ts: seq<Ticket<F>>, i: nat, tally: seq<Answer> -> SizeCounts)
    requires i < |ts|
    ensures TallyAll(ts[..i + 1], tally) == TallyAll(ts[..i], tally).Plus(tally(ts[i].answers))
  {
    assert ts[..i + 1][..i] == ts[..i];
  }

  lemma {:induction false} TallyAppend<F>(a: seq<Ticket<F>>, b: seq<Ticket<F>>, tally: seq<Answer> -> SizeCounts)
    ensures TallyAll(a + b, tally) == TallyAll(a, tally).Plus(TallyAll(b, tally))
    decreases |b|
  {
    hide TallyAll;
    if b == [] {
      assert a + b == a;
      TallyNone(b, tally);
    } else {
      var i := |b| - 1;
      TallyAppend(a, b[..i], tally);
      TallyOneMore(b, i, tally);
      TallyOneMore(a + b, |a| + i, tally);
      assert b[..i + 1] == b && (a + b)[..|a| + i + 1] == a + b && (a + b)[..|a| + i] == a + b[..i];
    }
  }

  // ---- the script's loops, proved against the port ----

  /** The merchandise part of the inner forEach. */
  method LegacyMerch(inherited: set<string>, name: string, merchCounts0: map<string, map<string, nat>>,
                     ghost m: map<string, SizeCounts>)
    returns (group: string, merchCounts: map<string, map<string, nat>>)
    requires merchCounts0 == MerchObject(m) && MerchOwn(inherited, name)
    ensures group == CleanName(name, ["hoodie"])
    ensures merchCounts == MerchObject(PostMerch(m, MerchOf(name, ["hoodie"])))
  {
    hide NormalizeSize, ScriptSize, SizeOf, One, SizeObject, MerchObject, Split, Join, Trim, Contains, ToLower,
         CleanName,
         MerchOf, MerchOwn, Bump;
    group, merchCounts := name, merchCounts0;
    MerchPieces(inherited, name);
    if Contains(ToLower(group), "hoodie") {
      var parts := Split(group, " - ");
      if |parts| > 1 {
        var merchSize := ScriptSize(parts[|parts| - 1]);
        SizesReadAlike(parts[|parts| - 1]);
        var parsedMerchType := Trim(Join(parts[..|parts| - 1], " - "));
        group := parsedMerchType;
        if merchSize != "" {
          ghost var c := Lookup(m, parsedMerchType, NONE);
          MerchEntry(m, parsedMerchType, c.Plus(One(SizeOf(merchSize))));
          BumpIsAdd(inherited, c, merchSize);
          if parsedMerchType !in merchCounts && parsedMerchType !in inherited {
            merchCounts := merchCounts[parsedMerchType := NoSizes()];
          }
          merchCounts := merchCounts[parsedMerchType := Bump(inherited, merchCounts[parsedMerchType], merchSize)];
        }
      }
    }
  }

  /** What the port makes of a name, in the script's terms. */
  lemma MerchPieces(inherited: set<string>, name: string)
    ensures var parts := Split(name, " - ");
            var n := |parts| - 1;
            var hoodie := Contains(ToLower(name), "hoodie");
      && CleanName(name, ["hoodie"]) == (if hoodie && n > 0 then Trim(Join(parts[..n], " - ")) else name)
      && MerchOf(name, ["hoodie"]) ==
           (if hoodie && n > 0 && NormalizeSize(parts[n]) != ""
            then Some((Trim(Join(parts[..n], " - ")), One(SizeOf(NormalizeSize(parts[n]))))) else None)
      && (MerchOwn(inherited, name) && hoodie && n > 0 && NormalizeSize(parts[n]) != "" ==>
            Trim(Join(parts[..n], " - ")) !in inherited && NormalizeSize(parts[n]) !in inherited)
  {
    hide NormalizeSize, SizeOf, One, Split, Join, Trim, Contains, ToLower, IsMerch;
    HoodieOnly(name);
    assert Separator() == " - ";
  }

  lemma MerchEntry(m: map<string, SizeCounts>, p: string, c: SizeCounts)
    ensures MerchObject(m)[p := SizeObject(c)] == MerchObject(m[p := c])
    ensures p in MerchObject(m) <==> p in m
    ensures p in m ==> MerchObject(m)[p] == SizeObject(Lookup(m, p, NONE))
    ensures p !in m ==> NoSizes() == SizeObject(Lookup(m, p, NONE))
  {
    hide SizeObject;
    NoSizesIsNone();
  }

  function NoSizes(): map<string, nat> {
    map["small" := 0, "medium" := 0, "large" := 0, "xl" := 0, "2xl" := 0, "3xl" := 0]
  }

  lemma NoSizesIsNone()
    ensures NoSizes() == SizeObject(NONE)
  {
  }

  lemma HoodieOnly(name: string)
    ensures IsMerch(name, ["hoodie"]) <==> Contains(ToLower(name), "hoodie")
  {
    hide Contains;
    assert ["hoodie"][0] == "hoodie";
    if Contains(ToLower(name), "hoodie") { assert Matches(ToLower(name), ["hoodie"][0]); }
  }

  /** The forEach over the answers of one ticket. */
  method LegacyAnswers(inherited: set<string>, t: Json, tshirtSizes0: map<string, nat>, ghost c: SizeCounts)
    returns (tshirtSizes: map<string, nat>)
    requires forall i | 0 <= i < |AnswerItems(t)| :: AnswerReadable(AnswerItems(t)[i])
    requires forall i | 0 <= i < |ReadAnswers(t)| :: AnswerOwn(inherited, ReadAnswers(t)[i])
    requires tshirtSizes0 == SizeObject(c)
    ensures tshirtSizes == SizeObject(c.Plus(LegacyTally(ReadAnswers(t))))
  {
    hide SizeObject, Asks, AnswerReadable, AnswerTally, AnswerOwn, SizeCounts.Plus;
    tshirtSizes := tshirtSizes0;
    PlusNone(c);
    var answers := AnswerItems(t);
    ghost var read := ReadAnswers(t);
    for i := 0 to |answers|
      invariant tshirtSizes == SizeObject(c.Plus(LegacyTally(read[..i])))
    {
      assert read[..i + 1][..i] == read[..i];
      assert read[i] == ReadAnswer(answers[i]);
      PlusAssociates(c, LegacyTally(read[..i]), AnswerTally(read[i]));
      tshirtSizes := LegacyAnswer(inherited, answers[i], tshirtSizes, c.Plus(LegacyTally(read[..i])));
    }
    assert read[..|answers|] == read;
  }

  method LegacyAnswer(inherited: set<string>, ans: Json, tshirtSizes0: map<string, nat>, ghost c: SizeCounts)
    returns (tshirtSizes: map<string, nat>)
    requires AnswerReadable(ans) && AnswerOwn(inherited, ReadAnswer(ans)) && tshirtSizes0 == SizeObject(c)
    ensures var a := ReadAnswer(ans);
            tshirtSizes == SizeObject(if Asks(a, TShirtQuestion()) then c.Plus(AnswerTally(a)) else c)
  {
    hide NormalizeSize, ScriptSize, SizeOf, One, SizeObject, Trim;
    tshirtSizes := tshirtSizes0;
    var heading := TextOf(Prop(ans, "question_heading"));
    EmptyHeadingAsksNothing();
    if heading != "" && Trim(heading) == "T-Shirt Size" {
      var choices := ItemsOf(Prop(ans, "answered_choices"));
      ghost var a := ReadAnswer(ans);
      if |choices| > 0 {
        var normalizedChoice := ScriptSize(TextOf(Prop(choices[0], "choice_heading")));
        SizesReadAlike(TextOf(Prop(choices[0], "choice_heading")));
        BumpIsAdd(inherited, c, normalizedChoice);
        tshirtSizes := Bump(inherited, tshirtSizes, normalizedChoice);
      } else {
        NoChoiceNoTally(a, c);
      }
    }
  }

  lemma EmptyHeadingAsksNothing()
    ensures Trim("") != TShirtQuestion()
  {
    assert Trim("") == "";
  }

  lemma EmptySize(s: string)
    requires s == ""
    ensures SizeOf(NormalizeSize(s)) == None
  {
    TrimOfTrimmed(s);
    EmptyIsNoSize(ToLower(Trim(s)));
  }

  lemma EmptyIsNoSize(s: string)
    requires s == ""
    ensures SizeOf(Canonical(s)) == None
  {
  }

  lemma NoChoiceNoTally(a: Answer, c: SizeCounts)
    requires a.choices == []
    ensures c.Plus(AnswerTally(a)) == c
  {
    hide NormalizeSize, SizeOf, One;
    EmptySize(FirstChoice(a));
    PlusOne(c, None);
  }

  /** Where the two agree on a text, the port reads the script's numbers. */
  lemma SameNumbers<F>(n: Floats<F>, js: Js<F>, o: Json, t: Json)
    requires AmountAgrees(n, js, Prop(t, "price")) && AmountAgrees(n, js, Prop(t, "price_total"))
    requires RateReadable(n, js, o)
    ensures ReadTicket(n, t).price == js.parseFloat(AmountText(Prop(t, "price")))
    ensures ReadTicket(n, t).priceTotal == js.parseFloat(AmountText(Prop(t, "price_total")))
    ensures ReadOrder(n, o).vatExempt == FlagOf(Prop(o, "vat_exempt"))
    ensures !FlagOf(Prop(o, "vat_exempt")) ==>
      Prop(o, "vat_rate").Num? && ReadOrder(n, o).vatRate == js.number(Prop(o, "vat_rate").text)
  {
    hide Prop, ReadAnswers, IntOf;
  }

  /**
   The income part of the inner forEach. A group by an inherited name is never created: its count and income land on
   the inherited object and the group is missing from the output.
   */
  method LegacyIncome<F>(ar: Arith<F>, ghost n: Floats<F>, js: Js<F>, o: Json, t: Json, clean: string,
                         ticketCounts0: map<string, TicketGroup<F>>)
    returns (ticketCounts: map<string, TicketGroup<F>>)
    requires AmountAgrees(n, js, Prop(t, "price")) && AmountAgrees(n, js, Prop(t, "price_total"))
    requires RateReadable(n, js, o)
    ensures var order, ticket := ReadOrder(n, o), ReadTicket(n, t);
            var group := Regroup(ar, clean, ticket.priceTotal, ticket.price);
            ticketCounts ==
              if group in js.inherited && group !in ticketCounts0 then ticketCounts0
              else PostGroup(ar, ticketCounts0, group, ExVat(ar, order.vatExempt, order.vatRate, ticket.priceTotal))
  {
    hide AmountAgrees, RateReadable, Prop, FlagOf, AmountText, ReadTicket, ReadOrder;
    SameNumbers(n, js, o, t);
    var group := clean;
    var income := js.parseFloat(AmountText(Prop(t, "price_total")));
    var price := js.parseFloat(AmountText(Prop(t, "price")));
    if ar.eq(income, ar.zero) {
      group := "Sponsors and other free tickets";
    } else if ar.lt(income, price) {
      group := "Discounted";
    }
    if !FlagOf(Prop(o, "vat_exempt")) {
      income := ar.div(income, ar.add(ar.one, js.number(Prop(o, "vat_rate").text)));
    }
    ticketCounts := ticketCounts0;
    if group !in ticketCounts && group !in js.inherited {
      ticketCounts := ticketCounts[group := TicketGroup(0, ar.zero)];
    }
    if group in ticketCounts {
      var row := ticketCounts[group];
      row := row.(count := row.count + 1);
      row := row.(incomeExVat := ar.add(row.incomeExVat, income));
      ticketCounts := ticketCounts[group := row];
    }
  }

  /** The inner forEach: the tickets of one order. The ghost summary is the port's, in step. */
  method LegacyOrder<F>(ar: Arith<F>, ghost n: Floats<F>, js: Js<F>, o: Json, ghost s: Summary<F>, ghost c: SizeCounts,
                        ticketCounts0: map<string, TicketGroup<F>>, tshirtSizes0: map<string, nat>,
                        merchCounts0: map<string, map<string, nat>>)
    returns (ticketCounts: map<string, TicketGroup<F>>, tshirtSizes: map<string, nat>,
             merchCounts: map<string, map<string, nat>>)
    requires OrderReadable(ar, n, js, o)
    requires ticketCounts0 == s.ticketGroups && merchCounts0 == MerchObject(s.merch) && tshirtSizes0 == SizeObject(c)
    ensures var order := ReadOrder(n, o);
            var t := PostLines(ar, s, OrderLines(ar, LegacyOptions(), order));
      && ticketCounts == t.ticketGroups && merchCounts == MerchObject(t.merch)
      && tshirtSizes == SizeObject(c.Plus(TallyAll(order.tickets, LegacyTally)))
  {
    hide SizeObject, MerchObject, LegacyTally, LineOf, ReadTicket, TicketReadable, TicketOwn, TallyAll, PostMerch,
         PostGroup, SizeCounts.Plus;
    ticketCounts, tshirtSizes, merchCounts := ticketCounts0, tshirtSizes0, merchCounts0;
    var tickets := TicketItems(o);
    ghost var order := ReadOrder(n, o);
    ghost var lines := OrderLines(ar, LegacyOptions(), order);
    ghost var t := s;
    TallyNone(order.tickets[..0], LegacyTally);
    PlusNone(c);
    for i := 0 to |tickets|
      invariant t == PostLines(ar, s, lines[..i])
      invariant ticketCounts == t.ticketGroups && merchCounts == MerchObject(t.merch)
      invariant tshirtSizes == SizeObject(c.Plus(TallyAll(order.tickets[..i], LegacyTally)))
    {
      assert lines[..i + 1][..i] == lines[..i];
      assert order.tickets[i] == ReadTicket(n, tickets[i]);
      TallyOneMore(order.tickets, i, LegacyTally);
      PlusAssociates(c, TallyAll(order.tickets[..i], LegacyTally), LegacyTally(order.tickets[i].answers));
      ticketCounts, tshirtSizes, merchCounts := LegacyTicket(ar, n, js, o, tickets[i],
        t, c.Plus(TallyAll(order.tickets[..i], LegacyTally)), ticketCounts, tshirtSizes, merchCounts);
      t := Post(ar, t, lines[i]);
    }
    assert lines[..|tickets|] == lines && order.tickets[..|tickets|] == order.tickets;
  }

  method LegacyTicket<F>(ar: Arith<F>, ghost n: Floats<F>, js: Js<F>, o: Json, t: Json,
                         ghost s: Summary<F>, ghost c: SizeCounts,
                         ticketCounts0: map<string, TicketGroup<F>>, tshirtSizes0: map<string, nat>,
                         merchCounts0: map<string, map<string, nat>>)
    returns (ticketCounts: map<string, TicketGroup<F>>, tshirtSizes: map<string, nat>,
             merchCounts: map<string, map<string, nat>>)
    requires TicketReadable(n, js, t) && RateReadable(n, js, o) && TicketOwn(ar, js, ReadTicket(n, t))
    requires ticketCounts0 == s.ticketGroups && merchCounts0 == MerchObject(s.merch) && tshirtSizes0 == SizeObject(c)
    ensures var line := LineOf(ar, LegacyOptions(), ReadOrder(n, o), ReadTicket(n, t));
      && ticketCounts == PostGroup(ar, s.ticketGroups, line.group, line.income)
      && merchCounts == MerchObject(PostMerch(s.merch, line.merch))
    ensures tshirtSizes == SizeObject(c.Plus(LegacyTally(ReadTicket(n, t).answers)))
  {
    hide SizeObject, MerchObject, LegacyTally, ReadOrder, PostMerch, PostGroup, CleanName, MerchOf, TshirtOf,
         Regroup, ExVat, ReadAnswers, RateReadable, AmountAgrees, AnswerReadable, Prop, MoneyOf, IntOf, MerchOwn,
         AnswerOwn;
    var group;
    group, merchCounts := LegacyMerch(js.inherited, TextOf(Prop(t, "ticket_type_name")), merchCounts0, s.merch);
    tshirtSizes := LegacyAnswers(js.inherited, t, tshirtSizes0, c);
    ticketCounts := LegacyIncome(ar, n, js, o, t, group, ticketCounts0);
  }

  /** The first half of the script: groups, T-shirts and merchandise. */
  method LegacyCounts<F>(ar: Arith<F>, ghost n: Floats<F>, js: Js<F>, j: Json)
    returns (ticketCounts: map<string, TicketGroup<F>>, tshirtSizes: map<string, nat>,
             merchCounts: map<string, map<string, nat>>)
    requires Readable(ar, n, js, j)
    ensures var orders := ReadOrders(n, j);
            var s := SummaryOf(ar, LegacyOptions(), orders);
      && ticketCounts == s.ticketGroups && merchCounts == MerchObject(s.merch)
      && tshirtSizes == SizeObject(TallyAll(AllTickets(orders.orders), LegacyTally))
  {
    hide SizeObject, TallyAll, PostLines, OrderLines, ReadOrder, OrderReadable, CountOrder;
    ticketCounts, tshirtSizes, merchCounts := map[], NoSizes(), map[];
    NoSizesIsNone();
    ghost var orders := ReadOrders(n, j).orders;
    ghost var start := Empty<F>(ReadOrders(n, j).uuid);
    ghost var ts: seq<Ticket<F>> := [];
    TallyNone(ts, LegacyTally);
    assert MerchObject(map[]) == map[];
    hide MerchObject;
    var items := OrderItems(j);
    for i := 0 to |items|
      invariant ts == AllTickets(orders[..i])
      invariant var s := PostOrders(ar, LegacyOptions(), start, orders[..i]);
                ticketCounts == s.ticketGroups && merchCounts == MerchObject(s.merch)
      invariant tshirtSizes == SizeObject(TallyAll(ts, LegacyTally))
    {
      PostNextOrder(ar, LegacyOptions(), start, orders, i);
      assert orders[i] == ReadOrder(n, items[i]);
      ghost var s := PostOrders(ar, LegacyOptions(), start, orders[..i]);
      CountOrderOnlyCounts(s, orders[i].state);
      TallyAppend(ts, orders[i].tickets, LegacyTally);
      ticketCounts, tshirtSizes, merchCounts := LegacyOrder(ar, n, js, items[i],
        CountOrder(s, orders[i].state), TallyAll(ts, LegacyTally), ticketCounts, tshirtSizes, merchCounts);
      assert orders[..i + 1][..i] == orders[..i];
      ts := ts + orders[i].tickets;
    }
    assert orders[..|items|] == orders;
  }

  lemma CountOrderOnlyCounts<F>(s: Summary<F>, state: string)
    ensures var t := CountOrder(s, state); t.ticketGroups == s.ticketGroups && t.merch == s.merch
  {
  }

  // ---- the script's sponsor list ----

  function CompanyOf(s: Sponsor): string { s.company }

  function Companies(list: seq<Sponsor>): (names: seq<string>)
    ensures |names| == |list| && forall i | 0 <= i < |list| :: names[i] == CompanyOf(list[i])
  {
    seq(|list|, i requires 0 <= i < |list| => CompanyOf(list[i]))
  }

  /** Alphabetical order of the names in lower case, character by character. */
  ghost predicate InOrder(names: seq<string>) {
    forall i, k | 0 <= i < k < |names| :: Earlier(ToLower(names[i]), ToLower(names[k]))
  }

  /** The second half of the script: first company name per sponsor, sorted case-insensitively. */
  method LegacySponsors<F>(ghost n: Floats<F>, j: Json) returns (sponsors: seq<string>)
    ensures forall list :: IsSponsorList(list, AllTickets(ReadOrders(n, j).orders), LegacyOptions().sponsorPks)
              ==> sponsors == Companies(list)
    ensures InOrder(sponsors)
  {
    hide Collected, SeenIs, ReadOrder, IsSponsorList, InOrder;
    ghost var orders := ReadOrders(n, j).orders;
    var pks := [183067];
    sponsors := [];
    var seen: set<string> := {};
    ghost var ts: seq<Ticket<F>> := [];
    NothingSeen(ts, pks);
    NothingCollected(ts, pks);
    var items := OrderItems(j);
    for i := 0 to |items|
      invariant ts == AllTickets(orders[..i])
      invariant sponsors == Companies(Collected(ts, pks)) && SeenIs(seen, ts, pks)
    {
      assert orders[i] == ReadOrder(n, items[i]);
      sponsors, seen := LegacyOrderSponsors(n, items[i], ts, sponsors, seen);
      assert orders[..i + 1][..i] == orders[..i];
      ts := ts + orders[i].tickets;
    }
    assert orders[..|items|] == orders;
    NamesSortAlike(ts, pks);
    sponsors := SortBy(sponsors, ToLower);
  }

  method LegacyOrderSponsors<F>(ghost n: Floats<F>, o: Json, ghost before: seq<Ticket<F>>,
                                sponsors0: seq<string>, seen0: set<string>)
    returns (sponsors: seq<string>, seen: set<string>)
    requires sponsors0 == Companies(Collected(before, [183067])) && SeenIs(seen0, before, [183067])
    ensures var ts := before + ReadOrder(n, o).tickets;
            sponsors == Companies(Collected(ts, [183067])) && SeenIs(seen, ts, [183067])
  {
    hide CompanyKey, SeenIs, IsFirst, ReadTicket, Collected;
    sponsors, seen := sponsors0, seen0;
    var tickets := TicketItems(o);
    ghost var read := ReadOrder(n, o).tickets;
    assert before + read[..0] == before;
    for i := 0 to |tickets|
      invariant sponsors == Companies(Collected(before + read[..i], [183067]))
      invariant SeenIs(seen, before + read[..i], [183067])
    {
      assert before + read[..i + 1] == before + read[..i] + [read[i]];
      assert read[i] == ReadTicket(n, tickets[i]);
      sponsors, seen := LegacyTicketSponsor(n, tickets[i], before + read[..i], sponsors, seen);
    }
    assert read[..|tickets|] == read;
  }

  method LegacyTicketSponsor<F>(ghost n: Floats<F>, t: Json, ghost ts: seq<Ticket<F>>,
                                sponsors0: seq<string>, seen0: set<string>)
    returns (sponsors: seq<string>, seen: set<string>)
    requires sponsors0 == Companies(Collected(ts, [183067])) && SeenIs(seen0, ts, [183067])
    ensures var more := ts + [ReadTicket(n, t)];
            sponsors == Companies(Collected(more, [183067])) && SeenIs(seen, more, [183067])
  {
    hide SeenIs, IsFirst, ToLower, Trim, MoneyOf, ReadAnswers, Prop;
    sponsors, seen := sponsors0, seen0;
    ghost var ticket := ReadTicket(n, t);
    FirstIffUnseen(seen, ts, ticket, [183067]);
    SeenGrows(seen, ts, ticket, [183067]);
    assert (ts + [ticket])[..|ts|] == ts;
    if Prop(t, "ticket_type_pk").Num? && IntOf(Prop(t, "ticket_type_pk")) == 183067 {
      var name := TextOf(Prop(t, "company_name"));
      var key := ToLower(Trim(name));
      if key != "" && key !in seen {
        seen := seen + {key};
        sponsors := sponsors + [name];
      } else if key != "" {
        assert seen + {key} == seen;
      }
    }
  }

  /** Sorting the names is naming the sorted sponsors, because no two names compare equal. */
  lemma NamesSortAlike<F>(ts: seq<Ticket<F>>, pks: seq<int>)
    ensures forall list | IsSponsorList(list, ts, pks) ::
              SortBy(Companies(Collected(ts, pks)), ToLower) == Companies(list)
    ensures InOrder(SortBy(Companies(Collected(ts, pks)), ToLower))
  {
    hide Collected, IsSponsorList, SortBy, ToLower, Earlier;
    var all := Collected(ts, pks);
    SortByIsSortedPermutation(all, SortKey);
    SortedCollectionIsSponsorList(SortBy(all, SortKey), ts, pks);
    SortByMap(all, Companies(all), CompanyOf, SortKey, ToLower);
    ListMeans(SortBy(all, SortKey), ts, pks);
    forall list | IsSponsorList(list, ts, pks)
      ensures SortBy(Companies(all), ToLower) == Companies(list)
    {
      SponsorListUnique(SortBy(all, SortKey), list, ts, pks);
    }
  }

  // ---- parity ----

  /** No answer after the first T-shirt answer is another one of a known size. */
  ghost predicate OneSizeAtMost(answers: seq<Answer>) {
    forall i, k | 0 <= i < k < |answers| && Asks(answers[i], TShirtQuestion()) && Asks(answers[k], TShirtQuestion()) ::
      AnswerTally(answers[k]) == NONE
  }

  ghost predicate AtMostOneAnswer(answers: seq<Answer>) {
    forall i, k | 0 <= i < k < |answers| :: !(Asks(answers[i], TShirtQuestion()) && Asks(answers[k], TShirtQuestion()))
  }

  lemma {:induction false} FirstOfMore(answers: seq<Answer>)
    requires answers != []
    ensures var n := |answers| - 1;
            var before := FirstAnswer(answers[..n], TShirtQuestion());
      FirstAnswer(answers, TShirtQuestion()) ==
        (if before.Some? then before else if Asks(answers[n], TShirtQuestion()) then Some(answers[n]) else None)
    decreases |answers|
  {
    hide Asks;
    var n := |answers| - 1;
    if n > 0 {
      FirstOfMore(answers[1..]);
      assert answers[1..][..n - 1] == answers[..n][1..];
    }
  }

  lemma {:induction false} FirstAnswerExists(answers: seq<Answer>)
    ensures FirstAnswer(answers, TShirtQuestion()).Some?
       <==> exists i | 0 <= i < |answers| :: Asks(answers[i], TShirtQuestion())
  {
    hide Asks;
    if answers != [] {
      FirstAnswerExists(answers[1..]);
      assert answers == [answers[0]] + answers[1..];
      assert forall i | 1 <= i < |answers| :: answers[1..][i - 1] == answers[i];
    }
  }

  /** Per ticket: the port tallies at most what the script does, and the same iff no later answer has a size. */
  lemma {:induction false} TallyOfAnswers(answers: seq<Answer>)
    ensures FirstAnswer(answers, TShirtQuestion()).None? ==> LegacyTally(answers) == NONE
    ensures TshirtOf(answers).AtMost(LegacyTally(answers))
    ensures OneSizeAtMost(answers) <==> TshirtOf(answers) == LegacyTally(answers)
    decreases |answers|
  {
    hide Asks, AnswerTally, FirstAnswer, OneSizeAtMost;
    if answers == [] {
      FirstAnswerExists(answers);
      NoAnswersFine(answers);
    } else {
      var n := |answers| - 1;
      TallyOfAnswers(answers[..n]);
      FirstOfMore(answers);
      OneMoreAnswer(answers);
    }
  }

  lemma NoAnswersFine(answers: seq<Answer>)
    requires |answers| <= 1
    ensures OneSizeAtMost(answers)
  {
  }

  lemma OneMoreAnswer(answers: seq<Answer>)
    requires answers != []
    ensures var n := |answers| - 1;
      OneSizeAtMost(answers) <==>
        (OneSizeAtMost(answers[..n]) &&
         (FirstAnswer(answers[..n], TShirtQuestion()).Some? && Asks(answers[n], TShirtQuestion()) ==>
            AnswerTally(answers[n]) == NONE))
  {
    hide Asks, AnswerTally, FirstAnswer;
    FirstAnswerExists(answers[..|answers| - 1]);
    assert forall i | 0 <= i < |answers| - 1 :: answers[..|answers| - 1][i] == answers[i];
  }

  /** No ticket has a second T-shirt answer of a known size. */
  ghost predicate OneSizeEach<F>(ts: seq<Ticket<F>>) {
    forall i | 0 <= i < |ts| :: OneSizeAtMost(ts[i].answers)
  }

  lemma OneSizeEachStep<F>(ts: seq<Ticket<F>>)
    requires ts != []
    ensures var n := |ts| - 1; OneSizeEach(ts) <==> OneSizeEach(ts[..n]) && OneSizeAtMost(ts[n].answers)
  {
    hide OneSizeAtMost;
    assert forall i | 0 <= i < |ts| - 1 :: ts[..|ts| - 1][i] == ts[i];
  }

  /** Over all tickets the same: at most, and equal iff equal ticket by ticket. */
  lemma {:induction false} TallyOfTickets<F>(ts: seq<Ticket<F>>)
    ensures TallyAll(ts, TshirtOf).AtMost(TallyAll(ts, LegacyTally))
    ensures TallyAll(ts, TshirtOf) == TallyAll(ts, LegacyTally) <==> OneSizeEach(ts)
    decreases |ts|
  {
    hide LegacyTally, TshirtOf, OneSizeAtMost, SizeCounts.Plus, SizeCounts.AtMost;
    if ts == [] {
      NoneAtMost(NONE);
    } else {
      var n := |ts| - 1;
      OneSizeEachStep(ts);
      hide OneSizeEach;
      TallyOfTickets(ts[..n]);
      TallyOfAnswers(ts[n].answers);
      PlusAtMost(TallyAll(ts[..n], TshirtOf), TshirtOf(ts[n].answers),
                 TallyAll(ts[..n], LegacyTally), LegacyTally(ts[n].answers));
    }
  }

  lemma {:induction false} LinesTshirts<F>(ar: Arith<F>, s: Summary<F>, order: Order<F>, k: nat)
    requires k <= |order.tickets|
    ensures PostLines(ar, s, OrderLines(ar, LegacyOptions(), order)[..k]).tshirts
         == s.tshirts.Plus(TallyAll(order.tickets[..k], TshirtOf))
  {
    hide TshirtOf, PostMerch, PostGroup, Regroup, ExVat, CleanName, MerchOf;
    if k > 0 {
      LinesTshirts(ar, s, order, k - 1);
      var lines := OrderLines(ar, LegacyOptions(), order);
      assert lines[..k][..k - 1] == lines[..k - 1];
      assert order.tickets[..k][..k - 1] == order.tickets[..k - 1];
    }
  }

  lemma {:induction false} SummaryTshirts<F>(ar: Arith<F>, uuid: string, orders: seq<Order<F>>)
    ensures PostOrders(ar, LegacyOptions(), Empty(uuid), orders).tshirts == TallyAll(AllTickets(orders), TshirtOf)
    decreases |orders|
  {
    hide PostLines, OrderLines, TallyAll;
    if orders == [] {
      TallyNone(AllTickets(orders), TshirtOf);
    } else {
      var init, last := orders[..|orders| - 1], orders[|orders| - 1];
      SummaryTshirts(ar, uuid, init);
      var s := CountOrder(PostOrders(ar, LegacyOptions(), Empty(uuid), init), last.state);
      LinesTshirts(ar, s, last, |last.tickets|);
      assert OrderLines(ar, LegacyOptions(), last)[..|last.tickets|] == OrderLines(ar, LegacyOptions(), last);
      assert last.tickets[..|last.tickets|] == last.tickets;
      TallyAppend(AllTickets(init), last.tickets, TshirtOf);
    }
  }

  /**
   Parity. On every payload both can read, the script and the port report the same groups with
   the same counts and bit-identical incomes, the same merchandise and the same sponsors. The
   port's T-shirt tally is pointwise at most the script's, and equal to it exactly when no ticket
   has a second T-shirt answer of a known size.
   */
  method LegacyParity<F>(ar: Arith<F>, n: Floats<F>, js: Js<F>, j: Json)
    returns (ticketCounts: map<string, TicketGroup<F>>, tshirtSizes: map<string, nat>,
             merchCounts: map<string, map<string, nat>>, sponsors: seq<string>,
             port: Summary<F>, portSponsors: seq<Sponsor>)
    requires Decodes(n, OrdersTy(), j) && Readable(ar, n, js, j)
    ensures port == SummaryOf(ar, LegacyOptions(), OrdersOf(n, Decoded(n, OrdersTy(), j)))
    ensures IsSponsorList(portSponsors, AllTickets(ReadOrders(n, j).orders), LegacyOptions().sponsorPks)
    ensures ticketCounts == port.ticketGroups
    ensures merchCounts == MerchObject(port.merch)
    ensures sponsors == Companies(portSponsors)
    ensures var all := TallyAll(AllTickets(ReadOrders(n, j).orders), LegacyTally);
      tshirtSizes == SizeObject(all) && port.tshirts.AtMost(all)
    ensures tshirtSizes == SizeObject(port.tshirts) <==> OneSizeEach(AllTickets(ReadOrders(n, j).orders))
  {
    hide SizeObject, MerchObject, Readable, Decodes, Decoded, ReadOrders, PostOrders, IsSponsorList, AllTickets,
      TallyAll, OneSizeEach, Companies;
    PayloadShown(n, j);
    var orders := OrdersOf(n, Decoded(n, OrdersTy(), j));
    port := Summarise(ar, orders, LegacyOptions());
    portSponsors := Sponsors(orders, LegacyOptions());
    ticketCounts, tshirtSizes, merchCounts := LegacyCounts(ar, n, js, j);
    sponsors := LegacySponsors(n, j);
    SummaryTshirts(ar, orders.uuid, orders.orders);
    TallyOfTickets(AllTickets(orders.orders));
    SizeObjectInjective(port.tshirts, TallyAll(AllTickets(orders.orders), LegacyTally));
  }

  lemma SizeObjectInjective(a: SizeCounts, b: SizeCounts)
    ensures SizeObject(a) == SizeObject(b) ==> a == b
  {
    assert forall k :: k in SizeObject(a) <==> k in SizeObject(b);
    if SizeObject(a) == SizeObject(b) {
      assert SizeObject(a)["small"] == SizeObject(b)["small"];
      assert SizeObject(a)["medium"] == SizeObject(b)["medium"];
      assert SizeObject(a)["large"] == SizeObject(b)["large"];
      assert SizeObject(a)["xl"] == SizeObject(b)["xl"];
      assert SizeObject(a)["2xl"] == SizeObject(b)["2xl"];
      assert SizeObject(a)["3xl"] == SizeObject(b)["3xl"];
    }
  }

  /** Tickets with at most one T-shirt answer always satisfy the condition. */
  lemma OneAnswerIsOneSize(answers: seq<Answer>)
    requires AtMostOneAnswer(answers)
    ensures OneSizeAtMost(answers)
  {
    hide Asks, AnswerTally;
  }
}
