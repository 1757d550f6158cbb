/**
 What survives a restart: Build, store, load, and summarise again.

 The stored summary and sponsors always come back as they were built. The stored orders come back with every
 amount to the cent, so summarising them again need not give the stored summary: the numbers of orders, tickets,
 states, sizes and products do come out the same, but a rounded price can move a ticket to another group and
 changes what it earns. TicketKeptIff says exactly when for one ticket, and Rounding.dfy for a whole payload.
 */
module Restart {
  import opened Wrappers
  import opened Decimals
  import opened GoJson
  import opened TicketButler
  import opened Sizes
  import opened Aggregate
  import opened SponsorList
  import opened SnapshotStore
  import opened SummaryLaws
  import opened Payload
  import Service = RefreshService

  // ---- Build ----

  /** Everything a snapshot derives from one fetch. */
  ghost predicate IsBuilt<F>(ar: Arith<F>, n: Floats<F>, opts: Options, s: Snapshot<F>) {
    var orders := OrdersOf(n, s.orders);
    s.summary == SummaryOf(ar, opts, orders) && IsSponsorList(s.sponsors, AllTickets(orders.orders), opts.sponsorPks)
  }

  method Build<F>(ar: Arith<F>, n: Floats<F>, opts: Options, orders: Val<F>, fetchedAt: string, durationMs: int)
    returns (s: Snapshot<F>)
    ensures s.fetchedAt == fetchedAt && s.durationMs == durationMs && s.orders == orders
    ensures IsBuilt(ar, n, opts, s)
  {
    var typed := OrdersOf(n, orders);
    var summary := Summarise(ar, typed, opts);
    var sponsors := Sponsors(typed, opts);
    s := Snapshot(fetchedAt, durationMs, summary, sponsors, orders);
  }

  // ---- what is built can be stored ----

  lemma {:induction false} ZeroHasType<F>(n: Floats<F>, ty: Ty)
    ensures HasType(ty, Zero(n, ty))
  {
    match ty
    case TStruct(fields) =>
      forall k | k in fields ensures HasType(fields[k], Zero(n, fields[k])) { ZeroHasType(n, fields[k]); }
    case _ =>
  }

  /** Decoding produces values of the declared type. */
  lemma {:induction false} DecodedHasType<F>(n: Floats<F>, ty: Ty, j: Json)
    requires Decodes(n, ty, j)
    ensures HasType(ty, Decoded(n, ty, j))
    decreases j, ty
  {
    match ty
    case TPtr(u) => if !j.Null? { DecodedHasType(n, u, j); }
    case TSlice(u) =>
      if j.Arr? {
        forall i | 0 <= i < |j.items| ensures HasType(u, Decoded(n, u, j.items[i])) {
          DecodedHasType(n, u, j.items[i]);
        }
      }
    case TMap(u) =>
      if j.Obj? {
        forall k | k in j.fields ensures HasType(u, Decoded(n, u, j.fields[k])) { DecodedHasType(n, u, j.fields[k]); }
      }
    case TStruct(fields) =>
      forall k | k in fields
        ensures HasType(fields[k],
                        if j.Obj? && k in j.fields then Decoded(n, fields[k], j.fields[k]) else Zero(n, fields[k]))
      {
        if j.Obj? && k in j.fields { DecodedHasType(n, fields[k], j.fields[k]); } else { ZeroHasType(n, fields[k]); }
      }
    case _ =>
  }

  predicate SizesAtMost(c: SizeCounts, bound: nat) {
    c.small <= bound && c.medium <= bound && c.large <= bound && c.xl <= bound && c.xxl <= bound && c.xxxl <= bound
  }

  /** No counter exceeds the number of orders or tickets. */
  ghost predicate Bounded<F>(s: Summary<F>) {
    && s.schemaVersion == SCHEMA_VERSION
    && (forall k | k in s.ordersByState :: s.ordersByState[k] <= s.orders)
    && (forall k | k in s.ticketGroups :: s.ticketGroups[k].count <= s.tickets)
    && SizesAtMost(s.tshirts, s.tickets)
    && (forall k | k in s.merch :: SizesAtMost(s.merch[k], s.tickets))
  }

  predicate OneGarment(c: SizeCounts) {
    c.Total() <= 1
  }

  lemma LineGarments<F>(ar: Arith<F>, opts: Options, order: Order<F>, t: Ticket<F>)
    ensures var line := LineOf(ar, opts, order, t);
      OneGarment(line.tshirt) && (line.merch.Some? ==> OneGarment(line.merch.value.1))
  {
    hide SizeOf, NormalizeSize, ProductAndSize, IsMerch, FirstAnswer, CleanName, Regroup, FirstChoice;
    OneSize(SizeOf(NormalizeSize(FirstChoice(FirstAnswer(t.answers, TShirtQuestion()).GetOr(Answer("", []))))));
    OneSize(SizeOf(ProductAndSize(t.typeName).1));
  }

  lemma OneSize(size: Option<Size>)
    ensures OneGarment(One(size))
  {
  }

  lemma PostBounded<F>(ar: Arith<F>, s: Summary<F>, line: Line<F>)
    requires Bounded(s) && OneGarment(line.tshirt) && (line.merch.Some? ==> OneGarment(line.merch.value.1))
    ensures Bounded(Post(ar, s, line))
  {
  }

  lemma {:induction false} LinesBounded<F>(ar: Arith<F>, s: Summary<F>, lines: seq<Line<F>>)
    requires Bounded(s)
    requires forall i | 0 <= i < |lines| ::
      OneGarment(lines[i].tshirt) && (lines[i].merch.Some? ==> OneGarment(lines[i].merch.value.1))
    ensures Bounded(PostLines(ar, s, lines))
    decreases |lines|
  {
    if lines != [] {
      hide Bounded, OneGarment, Post;
      LinesBounded(ar, s, lines[..|lines| - 1]);
      PostBounded(ar, PostLines(ar, s, lines[..|lines| - 1]), lines[|lines| - 1]);
    }
  }

  lemma {:induction false} OrdersBounded<F>(ar: Arith<F>, opts: Options, s: Summary<F>, orders: seq<Order<F>>)
    requires Bounded(s)
    ensures Bounded(PostOrders(ar, opts, s, orders))
    decreases |orders|
  {
    hide PostLines, OneGarment, LineOf;
    if orders != [] {
      var order := orders[|orders| - 1];
      OrdersBounded(ar, opts, s, orders[..|orders| - 1]);
      forall i | 0 <= i < |order.tickets|
        ensures var line := LineOf(ar, opts, order, order.tickets[i]);
                OneGarment(line.tshirt) && (line.merch.Some? ==> OneGarment(line.merch.value.1))
      {
        LineGarments(ar, opts, order, order.tickets[i]);
      }
      LinesBounded(ar, CountOrder(PostOrders(ar, opts, s, orders[..|orders| - 1]), order.state),
                   OrderLines(ar, opts, order));
    }
  }

  /** With fewer than 2^63 orders and tickets no counter of the summary overflows. */
  lemma SummaryCountersFit<F>(ar: Arith<F>, opts: Options, resp: Orders<F>)
    ensures Bounded(SummaryOf(ar, opts, resp))
    ensures SummaryOf(ar, opts, resp).orders <= MAX_INT64 && SummaryOf(ar, opts, resp).tickets <= MAX_INT64 ==>
              CountersFit(SummaryOf(ar, opts, resp))
  {
    OrdersBounded(ar, opts, Empty(resp.uuid), resp.orders);
    hide PostOrders;
  }

  lemma BuiltIsStorable<F>(ar: Arith<F>, n: Floats<F>, opts: Options, j: Json, s: Snapshot<F>)
    requires Decodes(n, OrdersTy(), j) && s.orders == Decoded(n, OrdersTy(), j) && IsBuilt(ar, n, opts, s)
    requires FitsInt64(s.durationMs) && s.summary.orders <= MAX_INT64 && s.summary.tickets <= MAX_INT64
    requires forall pk | pk in opts.sponsorPks :: FitsInt64(pk)
    ensures Storable(s)
  {
    hide OrdersTy, SummaryOf, CountersFit, Decodes, SameCompany, CompanyKey, Bounded;
    DecodedHasType(n, OrdersTy(), j);
    SummaryCountersFit(ar, opts, OrdersOf(n, s.orders));
    var ts := AllTickets(OrdersOf(n, s.orders).orders);
    forall x | x in s.sponsors ensures FitsInt64(x.typePk) {
      var i :| IsFirst(ts, opts.sponsorPks, i) && x == SponsorOf(ts[i]);
    }
  }

  // ---- what the aggregation sees of reprinted orders ----

  /** An amount as its printed form reads back. */
  function Reread<F>(n: Floats<F>, x: F): F {
    AmountOf(n, n.amount(x)).GetOr(x)
  }

  function RereadTicket<F>(n: Floats<F>, t: Ticket<F>): Ticket<F> {
    t.(price := Reread(n, t.price), priceTotal := Reread(n, t.priceTotal))
  }

  function RereadOrder<F>(n: Floats<F>, o: Order<F>): Order<F> {
    o.(tickets := seq(|o.tickets|, i requires 0 <= i < |o.tickets| => RereadTicket(n, o.tickets[i])))
  }

  function RereadOrders<F>(n: Floats<F>, r: Orders<F>): Orders<F> {
    r.(orders := seq(|r.orders|, i requires 0 <= i < |r.orders| => RereadOrder(n, r.orders[i])))
  }

  lemma FieldReprinted<F>(n: Floats<F>, v: Val<F>, key: string)
    ensures Field(Reprinted(n, v), key).Some? == Field(v, key).Some?
    ensures Field(v, key).Some? ==> Field(Reprinted(n, v), key).value == Reprinted(n, Field(v, key).value)
    ensures StringAt(Reprinted(n, v), key) == StringAt(v, key)
    ensures BoolAt(Reprinted(n, v), key) == BoolAt(v, key)
    ensures IntAt(Reprinted(n, v), key) == IntAt(v, key)
    ensures |ElemsAt(Reprinted(n, v), key)| == |ElemsAt(v, key)|
    ensures forall i | 0 <= i < |ElemsAt(v, key)| ::
      ElemsAt(Reprinted(n, v), key)[i] == Reprinted(n, ElemsAt(v, key)[i])
    ensures Field(v, key).Some? && Field(v, key).value.VAmount? ==>
              NumberAt(n, Reprinted(n, v), key) == Reread(n, NumberAt(n, v, key))
    ensures !(Field(v, key).Some? && Field(v, key).value.VAmount?) ==>
              NumberAt(n, Reprinted(n, v), key) == NumberAt(n, v, key)
  {
  }

  lemma FieldTyped<F>(tys: map<string, Ty>, v: Val<F>, key: string)
    requires HasType(TStruct(tys), v) && key in tys
    ensures Field(v, key).Some? && HasType(tys[key], Field(v, key).value)
    ensures tys[key].TSlice? ==> forall i | 0 <= i < |ElemsAt(v, key)| :: HasType(tys[key].elem, ElemsAt(v, key)[i])
    ensures tys[key] == TAmount ==> Field(v, key).value.VAmount?
    ensures tys[key] == TFloat ==> Field(v, key).value.VFloat?
  {
  }

  lemma AnswerReprinted<F>(n: Floats<F>, v: Val<F>)
    ensures AnswerOf(Reprinted(n, v)) == AnswerOf(v)
  {
    hide Field, StringAt, ElemsAt, Reprinted;
    FieldReprinted(n, v, "question_heading");
    FieldReprinted(n, v, "answered_choices");
    var choices := ElemsAt(v, "answered_choices");
    forall i | 0 <= i < |choices|
      ensures StringAt(Reprinted(n, choices[i]), "choice_heading") == StringAt(choices[i], "choice_heading")
    {
      FieldReprinted(n, choices[i], "choice_heading");
    }
  }

  lemma PointerReprinted<F>(n: Floats<F>, v: Val<F>)
    ensures Reprinted(n, v).VPtr? == v.VPtr?
    ensures v.VPtr? ==> Reprinted(n, v).target.Some? == v.target.Some?
    ensures v.VPtr? && v.target.Some? ==> Reprinted(n, v).target.value == Reprinted(n, v.target.value)
  {
  }

  lemma AnswersReprinted<F>(n: Floats<F>, v: Val<F>)
    ensures AnswersOf(Reprinted(n, v)) == AnswersOf(v)
  {
    hide Field, ElemsAt, Reprinted, AnswerOf;
    FieldReprinted(n, v, "ticket_answer_collection");
    var c := Field(v, "ticket_answer_collection");
    if c.Some? {
      PointerReprinted(n, c.value);
      if c.value.VPtr? && c.value.target.Some? {
        FieldReprinted(n, c.value.target.value, "answers");
        var answers := ElemsAt(c.value.target.value, "answers");
        forall i | 0 <= i < |answers| ensures AnswerOf(Reprinted(n, answers[i])) == AnswerOf(answers[i]) {
          AnswerReprinted(n, answers[i]);
        }
      }
    }
  }

  lemma TicketReprinted<F>(n: Floats<F>, v: Val<F>)
    requires HasType(TicketTy(), v)
    ensures TicketOf(n, Reprinted(n, v)) == RereadTicket(n, TicketOf(n, v))
  {
    hide Field, StringAt, IntAt, NumberAt, ElemsAt, Reprinted, AnswersOf, Reread, TicketTy, HasType;
    TicketFields();
    IsStruct();
    FieldTyped(TicketTy().fields, v, "price");
    FieldTyped(TicketTy().fields, v, "price_total");
    FieldReprinted(n, v, "ticket_type_pk");
    FieldReprinted(n, v, "ticket_type_name");
    FieldReprinted(n, v, "company_name");
    FieldReprinted(n, v, "email");
    FieldReprinted(n, v, "full_name");
    FieldReprinted(n, v, "price");
    FieldReprinted(n, v, "price_total");
    AnswersReprinted(n, v);
  }

  lemma OrderReprinted<F>(n: Floats<F>, v: Val<F>)
    requires HasType(OrderTy(), v)
    ensures OrderOf(n, Reprinted(n, v)) == RereadOrder(n, OrderOf(n, v))
  {
    hide Field, StringAt, BoolAt, NumberAt, ElemsAt, Reprinted, OrderTy, TicketTy, HasType, TicketOf, RereadTicket;
    OrderFields();
    IsStruct();
    FieldTyped(OrderTy().fields, v, "vat_rate");
    FieldTyped(OrderTy().fields, v, "tickets");
    FieldReprinted(n, v, "state");
    FieldReprinted(n, v, "vat_exempt");
    FieldReprinted(n, v, "vat_rate");
    FieldReprinted(n, v, "tickets");
    var tickets := ElemsAt(v, "tickets");
    forall i | 0 <= i < |tickets|
      ensures TicketOf(n, Reprinted(n, tickets[i])) == RereadTicket(n, TicketOf(n, tickets[i]))
    {
      TicketReprinted(n, tickets[i]);
    }
  }

  /** Of everything the aggregation reads, a restart changes only prices, to what their two decimals say. */
  lemma OrdersReprinted<F>(n: Floats<F>, v: Val<F>)
    requires HasType(OrdersTy(), v)
    ensures OrdersOf(n, Reprinted(n, v)) == RereadOrders(n, OrdersOf(n, v))
  {
    hide Field, StringAt, ElemsAt, Reprinted, OrdersTy, OrderTy, HasType, OrderOf, RereadOrder;
    OrdersFields();
    IsStruct();
    FieldTyped(OrdersTy().fields, v, "orders");
    FieldReprinted(n, v, "uuid");
    FieldReprinted(n, v, "orders");
    var orders := ElemsAt(v, "orders");
    forall i | 0 <= i < |orders| ensures OrderOf(n, Reprinted(n, orders[i])) == RereadOrder(n, OrderOf(n, orders[i])) {
      OrderReprinted(n, orders[i]);
    }
  }

  // ---- summarising the loaded orders again ----

  /** Summaries that differ at most in how tickets were grouped and what they earned. */
  ghost predicate SameCounts<F>(a: Summary<F>, b: Summary<F>) {
    b == a.(ticketGroups := b.ticketGroups)
  }

  lemma {:induction false} LinesSameCounts<F>(ar: Arith<F>, a: Summary<F>, b: Summary<F>, xs: seq<Line<F>>,
      ys: seq<Line<F>>)
    requires SameCounts(a, b) && |xs| == |ys|
    requires forall i | 0 <= i < |xs| :: xs[i].merch == ys[i].merch && xs[i].tshirt == ys[i].tshirt
    ensures SameCounts(PostLines(ar, a, xs), PostLines(ar, b, ys))
    decreases |xs|
  {
    if xs != [] { LinesSameCounts(ar, a, b, xs[..|xs| - 1], ys[..|ys| - 1]); }
  }

  lemma {:induction false} ResummarisedCounts<F>(ar: Arith<F>, n: Floats<F>, opts: Options, a: Summary<F>,
      b: Summary<F>, orders: seq<Order<F>>)
    requires SameCounts(a, b)
    ensures SameCounts(PostOrders(ar, opts, a, orders),
                       PostOrders(ar, opts, b, RereadOrders(n, Orders("", orders)).orders))
    decreases |orders|
  {
    hide PostLines, CleanName, MerchOf, TshirtOf, Regroup, ExVat;
    if orders != [] {
      var k := |orders| - 1;
      var again := RereadOrders(n, Orders("", orders)).orders;
      assert again[..k] == RereadOrders(n, Orders("", orders[..k])).orders;
      ResummarisedCounts(ar, n, opts, a, b, orders[..k]);
      var s, t := PostOrders(ar, opts, a, orders[..k]), PostOrders(ar, opts, b, again[..k]);
      LinesSameCounts(ar, CountOrder(s, orders[k].state), CountOrder(t, again[k].state),
                      OrderLines(ar, opts, orders[k]), OrderLines(ar, opts, again[k]));
    }
  }

  /** Group by group the same number of tickets and the same in-order sum of incomes. */
  ghost predicate SameGroups<F>(ar: Arith<F>, a: seq<Line<F>>, b: seq<Line<F>>) {
    forall g: string :: CountIn(a, g) == CountIn(b, g) && IncomeIn(ar, a, g) == IncomeIn(ar, b, g)
  }

  lemma GroupsSameIff<F>(ar: Arith<F>, m: map<string, TicketGroup<F>>, k: map<string, TicketGroup<F>>,
                         a: seq<Line<F>>, b: seq<Line<F>>)
    requires GroupsOk(ar, m, a) && GroupsOk(ar, k, b)
    ensures m == k <==> SameGroups(ar, a, b)
  {
    hide CountIn, IncomeIn;
    if m == k {
      forall g: string ensures CountIn(a, g) == CountIn(b, g) && IncomeIn(ar, a, g) == IncomeIn(ar, b, g) {
        assert g in m <==> g in k;
      }
    }
    if SameGroups(ar, a, b) {
      assert forall g: string :: g in m <==> CountIn(a, g) > 0;
      assert forall g: string :: g in k <==> CountIn(b, g) > 0;
      assert m.Keys == k.Keys;
      assert forall g | g in m :: m[g] == k[g];
    }
  }

  /** Summarising the loaded orders gives the stored summary exactly when no group's count or income moved. */
  lemma ResummarisedIff<F>(ar: Arith<F>, n: Floats<F>, opts: Options, r: Orders<F>)
    ensures var again := RereadOrders(n, r);
      && SameCounts(SummaryOf(ar, opts, r), SummaryOf(ar, opts, again))
      && (SummaryOf(ar, opts, again) == SummaryOf(ar, opts, r) <==>
          SameGroups(ar, Lines(ar, opts, r.orders), Lines(ar, opts, again.orders)))
  {
    var again := RereadOrders(n, r);
    ResummarisedCounts(ar, n, opts, Empty(r.uuid), Empty(r.uuid), r.orders);
    assert RereadOrders(n, Orders("", r.orders)).orders == again.orders;
    SummaryPerKey(ar, opts, r);
    SummaryPerKey(ar, opts, again);
    hide PostOrders, Lines, SameGroups, GroupsOk, MerchOk, StatesOk, RereadOrders;
    GroupsSameIff(ar, SummaryOf(ar, opts, r).ticketGroups, SummaryOf(ar, opts, again).ticketGroups,
                  Lines(ar, opts, r.orders), Lines(ar, opts, again.orders));
  }

  /**
   The whole way: fetch, build, store, restart, load. The summary and the sponsors are the ones that were built.
   Summarising the loaded orders again gives the stored summary up to its ticket groups, and the groups too
   exactly when rounding moved no group's count or income; so always when all amounts survive two decimals.
   */
  lemma LoadedAgain<F>(ar: Arith<F>, n: Floats<F>, z: Gzip, opts: Options, j: Json, s: Snapshot<F>)
    requires Decodes(n, OrdersTy(), j) && s.orders == Decoded(n, OrdersTy(), j) && IsBuilt(ar, n, opts, s)
    requires FitsInt64(s.durationMs) && s.summary.orders <= MAX_INT64 && s.summary.tickets <= MAX_INT64
    requires forall pk | pk in opts.sponsorPks :: FitsInt64(pk)
    requires Unpacks(n, z, s) && TextReadable(n, SummaryVal(s.summary)) && TextReadable(n, s.orders)
    ensures var loaded := DecodeSnapshot(n, z, EncodeSnapshot(n, z, s));
      && loaded.Some? && loaded.value == s.(orders := loaded.value.orders)
      && (loaded.value.orders == s.orders <==> AmountsSurvive(n, s.orders))
      && var fetched, again := OrdersOf(n, s.orders), OrdersOf(n, loaded.value.orders);
      && again == RereadOrders(n, fetched)
      && SameCounts(s.summary, SummaryOf(ar, opts, again))
      && (SummaryOf(ar, opts, again) == s.summary <==>
          SameGroups(ar, Lines(ar, opts, fetched.orders), Lines(ar, opts, again.orders)))
      && (AmountsSurvive(n, s.orders) ==> SummaryOf(ar, opts, again) == s.summary)
  {
    BuiltIsStorable(ar, n, opts, j, s);
    hide OrdersTy, SummaryVal, Unpacks, Decodes, DecodeSnapshot, EncodeSnapshot, IsSponsorList, SummaryOf, OrdersOf,
         SameGroups, SameCounts, RereadOrders;
    StoredAndLoaded(n, z, s);
    ReprintedSame(n, s.orders);
    OrdersReprinted(n, s.orders);
    ResummarisedIff(ar, n, opts, OrdersOf(n, s.orders));
  }

  /** A reader after the restart, when the cache is empty, is served the snapshot with its orders reread. */
  lemma RestartServes<F>(n: Floats<F>, z: Gzip, s: Snapshot<F>, w: Service.Weather<Snapshot<F>>,
                         cached: Option<Snapshot<F>>, store: Option<seq<bv8>>)
    requires Storable(s) && Unpacks(n, z, s) && w.fetched == Ok(s)
    requires TextReadable(n, SummaryVal(s.summary)) && TextReadable(n, s.orders)
    ensures var codec := SnapshotCodec(n, z);
      var code := Service.RefreshCode(Service.ReturnOf(codec, w));
      var (_, after) := Service.AfterRefresh(cached, store, s, EncodeSnapshot(n, z, s), Service.FateOf(codec, w));
      && (code == 200 ==> Service.CurrentOf(codec, None, after, false) == Ok(s.(orders := Reprinted(n, s.orders))))
      && (code == 207 ==> Service.CurrentOf(codec, None, after, false) == Service.CurrentOf(codec, None, store, false))
  {
    StoredAndLoaded(n, z, s);
    hide Storable, Unpacks, SummaryVal, EncodeSnapshot, DecodeSnapshot;
    Service.AfterRestart(SnapshotCodec(n, z), w, cached, store);
  }

  function SnapshotCodec<F>(n: Floats<F>, z: Gzip): Service.Codec<Snapshot<F>> {
    Service.Codec((s: Snapshot<F>) => Some(EncodeSnapshot(n, z, s)), data => DecodeSnapshot(n, z, data))
  }

  // ---- exact reals ----

  /** Amounts as decimal text over exact reals; how other numbers are written is left open. */
  function RealFloats(show: real -> string): Floats<real> {
    Floats(0.0, ParseAmount, show, FormatAmount)
  }

  lemma RealReread(show: real -> string, x: real)
    ensures AmountOf(RealFloats(show), FormatAmount(x)) == Some(ToCents(x))
  {
    AmountRoundTrip(x);
    assert FormatAmount(x) != "" && FormatAmount(x) != "null" by { AmountTextIsNotNull(x); }
    hide FormatAmount, ParseAmount, ToCents;
  }

  lemma AmountTextIsNotNull(x: real)
    ensures FormatAmount(x) != "" && FormatAmount(x) != "null"
  {
    var whole := NatText(Hundredths(x) / 100);
    assert IsDigit(whole[0]);
    hide NatText, Hundredths;
    assert FormatAmount(x)[0] != 'n';
    assert "null"[0] == 'n';
  }

  /** At most two decimals in every amount of the value. */
  ghost predicate AllWholeCents(v: Val<real>) {
    match v
    case VAmount(x) => WholeCents(x)
    case VPtr(target) => target.Some? ==> AllWholeCents(target.value)
    case VSlice(elems) => forall i | 0 <= i < |elems| :: AllWholeCents(elems[i])
    case VMap(entries) => forall k | k in entries :: AllWholeCents(entries[k])
    case VStruct(fields) => forall k | k in fields :: AllWholeCents(fields[k])
    case _ => true
  }

  /** An amount survives being stored exactly when it has at most two decimals. */
  lemma {:induction false} SurviveIffWholeCents(show: real -> string, v: Val<real>)
    ensures AmountsSurvive(RealFloats(show), v) <==> AllWholeCents(v)
  {
    hide RealFloats, WholeCents;
    match v
    case VAmount(x) => AmountSurvivesIff(show, x);
    case VPtr(target) => if target.Some? { SurviveIffWholeCents(show, target.value); }
    case VSlice(elems) =>
      forall i | 0 <= i < |elems| ensures AmountsSurvive(RealFloats(show), elems[i]) <==> AllWholeCents(elems[i]) {
        SurviveIffWholeCents(show, elems[i]);
      }
    case VMap(entries) =>
      forall k | k in entries ensures AmountsSurvive(RealFloats(show), entries[k]) <==> AllWholeCents(entries[k]) {
        SurviveIffWholeCents(show, entries[k]);
      }
    case VStruct(fields) =>
      forall k | k in fields ensures AmountsSurvive(RealFloats(show), fields[k]) <==> AllWholeCents(fields[k]) {
        SurviveIffWholeCents(show, fields[k]);
      }
    case _ =>
  }

  lemma AmountSurvivesIff(show: real -> string, x: real)
    ensures AmountOf(RealFloats(show), RealFloats(show).amount(x)) == Some(x) <==> WholeCents(x)
  {
    RealReread(show, x);
    ToCentsIsNearest(x);
    hide AmountOf, FormatAmount, ParseAmount, ToCents, WholeCents, Hundredths;
  }

  /** What was loaded has only whole cents. */
  lemma {:induction false} ReprintedIsWholeCents(show: real -> string, v: Val<real>)
    ensures AllWholeCents(Reprinted(RealFloats(show), v))
  {
    hide RealFloats, WholeCents;
    match v
    case VAmount(x) => RereadIsWholeCents(show, x);
    case VPtr(target) => if target.Some? { ReprintedIsWholeCents(show, target.value); }
    case VSlice(elems) =>
      forall i | 0 <= i < |elems| ensures AllWholeCents(Reprinted(RealFloats(show), elems[i])) {
        ReprintedIsWholeCents(show, elems[i]);
      }
    case VMap(entries) =>
      forall k | k in entries ensures AllWholeCents(Reprinted(RealFloats(show), entries[k])) {
        ReprintedIsWholeCents(show, entries[k]);
      }
    case VStruct(fields) =>
      forall k | k in fields ensures AllWholeCents(Reprinted(RealFloats(show), fields[k])) {
        ReprintedIsWholeCents(show, fields[k]);
      }
    case _ =>
  }

  lemma RereadIsWholeCents(show: real -> string, x: real)
    ensures AllWholeCents(Reprinted(RealFloats(show), VAmount(x)))
    ensures Reread(RealFloats(show), x) == ToCents(x)
  {
    RealReread(show, x);
    ToCentsIsNearest(x);
    hide AmountOf, FormatAmount, ParseAmount, ToCents, WholeCents, Hundredths;
  }

  /** Storing twice is storing once: what was loaded is loaded again unchanged. */
  lemma {:induction false} StoringIsIdempotent(show: real -> string, v: Val<real>)
    ensures var n := RealFloats(show); Reprinted(n, Reprinted(n, v)) == Reprinted(n, v)
  {
    hide RealFloats;
    var n := RealFloats(show);
    var once := Reprinted(n, v);
    match v
    case VAmount(x) =>
      RereadIsWholeCents(show, x);
      RereadIsWholeCents(show, ToCents(x));
      ToCentsIsNearest(x);
    case VPtr(target) => if target.Some? { StoringIsIdempotent(show, target.value); }
    case VSlice(elems) =>
      forall i | 0 <= i < |elems| ensures Reprinted(n, Reprinted(n, elems[i])) == Reprinted(n, elems[i]) {
        StoringIsIdempotent(show, elems[i]);
      }
      assert Reprinted(n, once).elems == once.elems;
    case VMap(entries) =>
      forall k | k in entries ensures Reprinted(n, Reprinted(n, entries[k])) == Reprinted(n, entries[k]) {
        StoringIsIdempotent(show, entries[k]);
      }
      assert Reprinted(n, once).entries == once.entries;
    case VStruct(fields) =>
      forall k | k in fields ensures Reprinted(n, Reprinted(n, fields[k])) == Reprinted(n, fields[k]) {
        StoringIsIdempotent(show, fields[k]);
      }
      assert Reprinted(n, once).fields == once.fields;
    case _ =>
  }

  // ---- one ticket, exactly ----

  /** Taking VAT off does not divide by zero. */
  predicate Divisible(order: Order<real>) {
    order.vatExempt || order.vatRate != -1.0
  }

  /**
   Rounding does not show on the ticket: its total has whole cents, and its list price, if it is compared at all
   and the outcome matters, stays on the same side of the total.
   */
  predicate Kept(opts: Options, t: Ticket<real>) {
    WholeCents(t.priceTotal) &&
    (t.priceTotal == 0.0 || CleanName(t.typeName, opts.merchPatterns) == GroupDiscounted()
     || (t.priceTotal < t.price <==> t.priceTotal < ToCents(t.price)))
  }

  lemma RereadIsToCents(show: real -> string, t: Ticket<real>)
    ensures RereadTicket(RealFloats(show), t) == t.(price := ToCents(t.price), priceTotal := ToCents(t.priceTotal))
  {
    RereadIsWholeCents(show, t.price);
    RereadIsWholeCents(show, t.priceTotal);
    hide Reread, ToCents;
  }

  lemma SameIncome(order: Order<real>, x: real, y: real)
    requires Divisible(order)
    ensures ExVat(Reals(), order.vatExempt, order.vatRate, x) == ExVat(Reals(), order.vatExempt, order.vatRate, y) <==>
      x == y
  {
    var d := 1.0 + order.vatRate;
    if !order.vatExempt && x / d == y / d { assert x == x / d * d == y / d * d == y; }
  }

  lemma SameGroup(clean: string, total: real, price: real, other: real)
    ensures Regroup(Reals(), clean, total, price) == Regroup(Reals(), clean, total, other) <==>
      total == 0.0 || clean == GroupDiscounted() || (total < price <==> total < other)
  {
    hide GroupFree, GroupDiscounted;
  }

  /** After a restart a ticket posts the line it posted before exactly when rounding does not show on it. */
  lemma TicketKeptIff(show: real -> string, opts: Options, order: Order<real>, t: Ticket<real>)
    requires Divisible(order)
    ensures LineOf(Reals(), opts, order, RereadTicket(RealFloats(show), t)) == LineOf(Reals(), opts, order, t) <==>
      Kept(opts, t)
  {
    var clean := CleanName(t.typeName, opts.merchPatterns);
    RereadIsToCents(show, t);
    ToCentsIsNearest(t.priceTotal);
    SameIncome(order, ToCents(t.priceTotal), t.priceTotal);
    SameGroup(clean, t.priceTotal, ToCents(t.price), t.price);
    hide CleanName, MerchOf, TshirtOf, Regroup, ExVat, ToCents, WholeCents, RereadTicket, GroupDiscounted, Hundredths,
         Divisible;
  }

  /** Every ticket of the orders is kept. */
  predicate AllKept(opts: Options, orders: seq<Order<real>>) {
    forall i, j | 0 <= i < |orders| && 0 <= j < |orders[i].tickets| :: Kept(opts, orders[i].tickets[j])
  }

  lemma LineIgnoresTickets(opts: Options, order: Order<real>, tickets: seq<Ticket<real>>, t: Ticket<real>)
    ensures LineOf(Reals(), opts, order.(tickets := tickets), t) == LineOf(Reals(), opts, order, t)
  {
    hide CleanName, MerchOf, TshirtOf, Regroup, ExVat;
  }

  /** Two summaries of one ticket each, told apart by their lines. */
  lemma OneTicketSameIff(opts: Options, uuid: string, a: Order<real>, t: Ticket<real>, b: Order<real>, u: Ticket<real>)
    requires a.tickets == [t] && b.tickets == [u] && a.state == b.state
    requires var x, y := LineOf(Reals(), opts, a, t), LineOf(Reals(), opts, b, u);
      y == x.(group := y.group, income := y.income)
    ensures SummaryOf(Reals(), opts, Orders(uuid, [a])) == SummaryOf(Reals(), opts, Orders(uuid, [b])) <==>
      LineOf(Reals(), opts, a, t) == LineOf(Reals(), opts, b, u)
  {
    hide LineOf, SummaryOf, Post, CountOrder;
    OneTicket(Reals(), opts, uuid, a, t);
    OneTicket(Reals(), opts, uuid, b, u);
    var x, y := LineOf(Reals(), opts, a, t), LineOf(Reals(), opts, b, u);
    SameMap(x.group, x.income, y.group, y.income);
  }

  lemma RereadOne<F>(n: Floats<F>, uuid: string, order: Order<F>, t: Ticket<F>)
    requires order.tickets == [t]
    ensures RereadOrders(n, Orders(uuid, [order])) == Orders(uuid, [order.(tickets := [RereadTicket(n, t)])])
  {
    hide RereadTicket;
    assert RereadOrder(n, order).tickets == [RereadTicket(n, t)];
    assert RereadOrders(n, Orders(uuid, [order])).orders == [RereadOrder(n, order)];
  }

  /** An order of one ticket gives its summary again exactly when the ticket is kept; Rounding.dfy has any number. */
  lemma OneTicketKeptIff(show: real -> string, opts: Options, uuid: string, order: Order<real>, t: Ticket<real>)
    requires order.tickets == [t] && Divisible(order)
    ensures var r := Orders(uuid, [order]);
      SummaryOf(Reals(), opts, RereadOrders(RealFloats(show), r)) == SummaryOf(Reals(), opts, r) <==> Kept(opts, t)
  {
    var n := RealFloats(show);
    var u := RereadTicket(n, t);
    assert u == t.(price := u.price, priceTotal := u.priceTotal);
    hide LineOf, SummaryOf, RereadOrders, RereadTicket, RealFloats, Kept, Divisible;
    RereadOne(n, uuid, order, t);
    TicketKeptIff(show, opts, order, t);
    LineIgnoresTickets(opts, order, [u], u);
    SameMerch(opts, order, t, u);
    OneTicketSameIff(opts, uuid, order, t, order.(tickets := [u]), u);
  }

  lemma SameMap(g: string, x: real, h: string, y: real)
    ensures map[g := TicketGroup(1, 0.0 + x)] == map[h := TicketGroup(1, 0.0 + y)] <==> g == h && x == y
  {
    var a, b := map[g := TicketGroup(1, 0.0 + x)], map[h := TicketGroup(1, 0.0 + y)];
    if a == b { assert g in b && a[g] == b[g]; }
  }

  lemma SameMerch(opts: Options, order: Order<real>, t: Ticket<real>, t': Ticket<real>)
    requires t' == t.(price := t'.price, priceTotal := t'.priceTotal)
    ensures var line, line' := LineOf(Reals(), opts, order, t), LineOf(Reals(), opts, order.(tickets := [t']), t');
      line' == line.(group := line'.group, income := line'.income)
  {
    hide CleanName, MerchOf, TshirtOf, Regroup, ExVat;
  }

  /** What rounding can do: a ticket sold for 0.004 counts as a free one after a restart. */
  lemma SmallPriceBecomesFree(show: real -> string, clean: string)
    requires clean != GroupFree()
    ensures Regroup(Reals(), clean, 0.004, 0.004) == clean
    ensures Regroup(Reals(), clean, Reread(RealFloats(show), 0.004), Reread(RealFloats(show), 0.004)) == GroupFree()
  {
    RereadIsWholeCents(show, 0.004);
    assert ToCents(0.004) == 0.0 by {
      assert 0.004 * 100.0 == 0.4;
      assert (0.4).Floor == 0;
    }
    hide GroupFree, GroupDiscounted, ToCents, Reread;
  }

  // ---- a payload on which it shows ----

  function SmallTicket(): Json {
    Obj(map["price" := Str("0.004")]["price_total" := Str("0.004")])
  }

  function SmallOrder(): Json {
    Obj(map["vat_exempt" := Bool(true)]["tickets" := Arr([SmallTicket()])])
  }

  /** One order with one ticket for 0.004. */
  function SmallPayload(): Json {
    Obj(map["orders" := Arr([SmallOrder()])])
  }

  lemma WithProp<F>(n: Floats<F>, tys: map<string, Ty>, f: map<string, Json>, k: string, v: Json)
    requires Decodes(n, TStruct(tys), Obj(f)) && (k in tys ==> Decodes(n, tys[k], v))
    ensures Decodes(n, TStruct(tys), Obj(f[k := v]))
  {
  }

  lemma NoProps<F>(n: Floats<F>, tys: map<string, Ty>)
    ensures Decodes(n, TStruct(tys), Obj(map[]))
  {
  }

  lemma OneElem<F>(n: Floats<F>, u: Ty, j: Json)
    requires Decodes(n, u, j)
    ensures Decodes(n, TSlice(u), Arr([j]))
  {
  }

  lemma FourThousandths()
    ensures AllDigits("0004") && DigitsValue("0004") == 4 && Pow10(3) == 1000
  {
    assert DigitsValue("") == 0;
    AppendDigit("", 0);
    AppendDigit("0", 0);
    AppendDigit("00", 0);
    AppendDigit("000", 4);
    assert "" + [DigitChar(0)] == "0" && "0" + [DigitChar(0)] == "00" && "00" + [DigitChar(0)] == "000";
    assert "000" + [DigitChar(4)] == "0004";
    assert Pow10(3) == 10 * Pow10(2) == 100 * Pow10(1) == 1000;
  }

  lemma SmallAmountParses()
    ensures ParseAmount("0.004") == Some(0.004)
  {
    FourThousandths();
    hide DigitsValue, Pow10;
    PointAfter("0", "004");
    assert "0.004" == "0" + "." + "004";
    assert "0.004"[..1] + "0.004"[2..] == "0004";
    assert 4.0 / 1000.0 == 0.004;
  }

  lemma AmountText(show: real -> string)
    ensures ParseAmount("0.004") == Some(0.004)
    ensures Decodes(RealFloats(show), TAmount, Str("0.004"))
  {
    hide ParseAmount;
    SmallAmountParses();
    assert "0.004"[0] == '0' && "null"[0] == 'n';
  }

  lemma SmallPayloadDecodes(show: real -> string)
    ensures Decodes(RealFloats(show), OrdersTy(), SmallPayload())
  {
    var n := RealFloats(show);
    AmountText(show);
    IsStruct();
    hide Decodes, OrdersTy, OrderTy, TicketTy, ParseAmount, RealFloats;
    TicketFields();
    NoProps(n, TicketTy().fields);
    WithProp(n, TicketTy().fields, map[], "price", Str("0.004"));
    WithProp(n, TicketTy().fields, map["price" := Str("0.004")], "price_total", Str("0.004"));
    OneElem(n, TicketTy(), SmallTicket());
    OrderFields();
    BoolDecodes(n, true);
    NoProps(n, OrderTy().fields);
    WithProp(n, OrderTy().fields, map[], "vat_exempt", Bool(true));
    WithProp(n, OrderTy().fields, map["vat_exempt" := Bool(true)], "tickets", Arr([SmallTicket()]));
    OneElem(n, OrderTy(), SmallOrder());
    OrdersFields();
    NoProps(n, OrdersTy().fields);
    WithProp(n, OrdersTy().fields, map[], "orders", Arr([SmallOrder()]));
  }

  lemma BoolDecodes<F>(n: Floats<F>, b: bool)
    ensures Decodes(n, TBool, Bool(b))
  {
  }

  lemma SmallPayloadReads(show: real -> string)
    ensures var r := ReadOrders(RealFloats(show), SmallPayload());
      && |r.orders| == 1 && r.orders[0].vatExempt
      && |r.orders[0].tickets| == 1 && r.orders[0].tickets[0].priceTotal == 0.004
  {
    AmountText(show);
    hide ParseAmount;
    var n := RealFloats(show);
    assert Prop(SmallTicket(), "price_total") == Str("0.004");
    assert MoneyOf(n, Str("0.004")) == 0.004;
    assert ReadTicket(n, SmallTicket()).priceTotal == 0.004;
    hide ReadTicket, SmallTicket, MoneyOf;
    assert ItemsOf(Prop(SmallOrder(), "tickets")) == [SmallTicket()] && FlagOf(Prop(SmallOrder(), "vat_exempt"));
    hide SmallOrder;
    assert ItemsOf(Prop(SmallPayload(), "orders")) == [SmallOrder()];
  }

  /** The payload decodes, and once stored and loaded its orders no longer give the summary stored beside them. */
  lemma SmallPayloadChanges(show: real -> string, opts: Options)
    ensures var n := RealFloats(show);
      && Decodes(n, OrdersTy(), SmallPayload())
      && var r := OrdersOf(n, Decoded(n, OrdersTy(), SmallPayload()));
      SummaryOf(Reals(), opts, RereadOrders(n, r)) != SummaryOf(Reals(), opts, r)
  {
    hide Decodes, Decoded, OrdersTy, SmallPayload, OrdersOf, ReadOrders, SummaryOf, RereadOrders, RealFloats;
    var n := RealFloats(show);
    SmallPayloadDecodes(show);
    PayloadShown(n, SmallPayload());
    SmallPayloadReads(show);
    var r := ReadOrders(n, SmallPayload());
    var order := r.orders[0];
    assert r == Orders(r.uuid, [order]) && order.tickets == [order.tickets[0]];
    assert !WholeCents(0.004) by { assert 0.004 * 100.0 == 0.4; assert (0.4).Floor == 0; }
    OneTicketKeptIff(show, opts, r.uuid, order, order.tickets[0]);
  }
}
