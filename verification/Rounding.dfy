/**
 Exactly when summarising the stored orders again gives the stored summary, over exact reals and for any number
 of orders and tickets.

 Rounding to the cent is monotone. So a ticket that moves to another group leaves the discounted one or enters the
 free one, and none moves the other way: group counts never cancel out. Incomes can, and only where totals have
 fractions of a cent.
 */
module Rounding {
  import opened Wrappers
  import opened Decimals
  import opened GoJson
  import opened TicketButler
  import opened Aggregate
  import opened SnapshotStore
  import opened SummaryLaws
  import opened Restart

  // ---- one ticket ----

  /**
   Rounding leaves the ticket in its group: a total that becomes 0 was 0 or made no difference, and a
   discounted ticket is still below its rounded list price or bears the discounted group's name.
   */
  predicate KeepsGroup(opts: Options, t: Ticket<real>) {
    var clean, total, cents := CleanName(t.typeName, opts.merchPatterns), t.priceTotal, ToCents(t.priceTotal);
    if cents == 0.0 then total == 0.0 || (total >= t.price && clean == GroupFree())
    else total >= t.price || cents < ToCents(t.price) || clean == GroupDiscounted()
  }

  /** How a ticket's group can differ after rounding. */
  predicate Settles(before: string, after: string) {
    && (after == GroupDiscounted() ==> before == GroupDiscounted())
    && (before == GroupFree() ==> after == GroupFree())
    && (before == after || before == GroupDiscounted() || after == GroupFree())
  }

  lemma RegroupSettles(clean: string, total: real, price: real, cents: real, list: real)
    requires (total == 0.0 ==> cents == 0.0) && (total >= price ==> cents >= list)
    ensures var x, y := Regroup(Reals(), clean, total, price), Regroup(Reals(), clean, cents, list);
      && Settles(x, y)
      && (x == y <==>
          if cents == 0.0 then total == 0.0 || (total >= price && clean == GroupFree())
          else total >= price || cents < list || clean == GroupDiscounted())
  {
    assert GroupFree()[0] != GroupDiscounted()[0];
    hide GroupFree, GroupDiscounted;
  }

  /** What rounding adds to the ticket's income excluding VAT. */
  function Shift(order: Order<real>, t: Ticket<real>): real {
    ExVat(Reals(), order.vatExempt, order.vatRate, ToCents(t.priceTotal) - t.priceTotal)
  }

  lemma ExVatAdds(exempt: bool, rate: real, x: real, y: real)
    ensures ExVat(Reals(), exempt, rate, x + y) == ExVat(Reals(), exempt, rate, x) + ExVat(Reals(), exempt, rate, y)
  {
    var d := 1.0 + rate;
    if !exempt && d != 0.0 { assert (x + y) / d == x / d + y / d; }
  }

  lemma GroupSettles(opts: Options, t: Ticket<real>)
    ensures var clean := CleanName(t.typeName, opts.merchPatterns);
      var x := Regroup(Reals(), clean, t.priceTotal, t.price);
      var y := Regroup(Reals(), clean, ToCents(t.priceTotal), ToCents(t.price));
      Settles(x, y) && (x == y <==> KeepsGroup(opts, t))
  {
    ToCentsMonotone(t.price, t.price);
    if t.priceTotal >= t.price { ToCentsMonotone(t.price, t.priceTotal); }
    hide CleanName, Regroup, ToCents, GroupDiscounted, GroupFree, Settles;
    RegroupSettles(CleanName(t.typeName, opts.merchPatterns), t.priceTotal, t.price,
                   ToCents(t.priceTotal), ToCents(t.price));
  }

  lemma LineParts(opts: Options, order: Order<real>, t: Ticket<real>)
    ensures var x := LineOf(Reals(), opts, order, t);
      && x.group == Regroup(Reals(), CleanName(t.typeName, opts.merchPatterns), t.priceTotal, t.price)
      && x.income == ExVat(Reals(), order.vatExempt, order.vatRate, t.priceTotal)
  {
    hide CleanName, MerchOf, TshirtOf, Regroup, ExVat;
  }

  /** The line a ticket posts after a restart, beside the one it posted before. */
  lemma TicketSettles(show: real -> string, opts: Options, order: Order<real>, t: Ticket<real>)
    ensures var x := LineOf(Reals(), opts, order, t);
      var y := LineOf(Reals(), opts, order, RereadTicket(RealFloats(show), t));
      && Settles(x.group, y.group) && (x.group == y.group <==> KeepsGroup(opts, t))
      && y.income == x.income + Shift(order, t)
  {
    hide LineOf, CleanName, Regroup, ExVat, ToCents, RereadTicket, RealFloats, Settles, KeepsGroup;
    var u := t.(price := ToCents(t.price), priceTotal := ToCents(t.priceTotal));
    RereadIsToCents(show, t);
    LineParts(opts, order, t);
    LineParts(opts, order, u);
    GroupSettles(opts, t);
    ExVatAdds(order.vatExempt, order.vatRate, t.priceTotal, ToCents(t.priceTotal) - t.priceTotal);
    assert t.priceTotal + (ToCents(t.priceTotal) - t.priceTotal) == ToCents(t.priceTotal);
  }

  // ---- lines before and after, side by side ----

  ghost predicate Aligned(xs: seq<Line<real>>, ys: seq<Line<real>>, shifts: seq<real>) {
    |xs| == |ys| == |shifts| &&
    forall i | 0 <= i < |xs| :: Settles(xs[i].group, ys[i].group) && ys[i].income == xs[i].income + shifts[i]
  }

  ghost predicate NoneMoves(xs: seq<Line<real>>, ys: seq<Line<real>>)
    requires |xs| == |ys|
  {
    forall i | 0 <= i < |xs| :: xs[i].group == ys[i].group
  }

  function OrderShifts(order: Order<real>): (r: seq<real>)
    ensures |r| == |order.tickets|
  {
    seq(|order.tickets|, j requires 0 <= j < |order.tickets| => Shift(order, order.tickets[j]))
  }

  function Shifts(orders: seq<Order<real>>): seq<real> {
    if orders == [] then [] else Shifts(orders[..|orders| - 1]) + OrderShifts(orders[|orders| - 1])
  }

  ghost predicate OrderKeepsGroups(opts: Options, order: Order<real>) {
    forall j | 0 <= j < |order.tickets| :: KeepsGroup(opts, order.tickets[j])
  }

  /** No ticket changes group. */
  ghost predicate AllKeepGroups(opts: Options, orders: seq<Order<real>>) {
    forall i | 0 <= i < |orders| :: OrderKeepsGroups(opts, orders[i])
  }

  lemma OrderAligned(show: real -> string, opts: Options, order: Order<real>)
    ensures var xs := OrderLines(Reals(), opts, order);
      var ys := OrderLines(Reals(), opts, RereadOrder(RealFloats(show), order));
      && Aligned(xs, ys, OrderShifts(order))
      && (NoneMoves(xs, ys) <==> OrderKeepsGroups(opts, order))
  {
    hide LineOf, KeepsGroup, RereadTicket, RealFloats, Settles, Shift;
    var n := RealFloats(show);
    var again := RereadOrder(n, order);
    var xs, ys, zs := OrderLines(Reals(), opts, order), OrderLines(Reals(), opts, again), OrderShifts(order);
    forall j | 0 <= j < |order.tickets|
      ensures Settles(xs[j].group, ys[j].group) && ys[j].income == xs[j].income + zs[j]
      ensures xs[j].group == ys[j].group <==> KeepsGroup(opts, order.tickets[j])
    {
      TicketSettles(show, opts, order, order.tickets[j]);
      LineIgnoresTickets(opts, order, again.tickets, again.tickets[j]);
    }
  }

  lemma AlignedAppend(a: seq<Line<real>>, b: seq<Line<real>>, c: seq<real>,
                      d: seq<Line<real>>, e: seq<Line<real>>, f: seq<real>)
    requires Aligned(a, b, c) && Aligned(d, e, f)
    ensures Aligned(a + d, b + e, c + f)
    ensures NoneMoves(a + d, b + e) <==> NoneMoves(a, b) && NoneMoves(d, e)
  {
    hide Settles;
    if NoneMoves(a + d, b + e) {
      assert forall i | 0 <= i < |a| :: (a + d)[i] == a[i] && (b + e)[i] == b[i];
      assert forall i | 0 <= i < |d| :: (a + d)[|a| + i] == d[i] && (b + e)[|b| + i] == e[i];
    }
  }

  lemma AllKeepGroupsStep(opts: Options, orders: seq<Order<real>>)
    requires orders != []
    ensures var k := |orders| - 1;
      AllKeepGroups(opts, orders) <==> AllKeepGroups(opts, orders[..k]) && OrderKeepsGroups(opts, orders[k])
  {
    hide OrderKeepsGroups;
    assert forall i | 0 <= i < |orders| - 1 :: orders[..|orders| - 1][i] == orders[i];
  }

  function AgainOf(show: real -> string, orders: seq<Order<real>>): seq<Order<real>> {
    RereadOrders(RealFloats(show), Orders("", orders)).orders
  }

  lemma AgainStep(show: real -> string, orders: seq<Order<real>>)
    requires orders != []
    ensures var k, again := |orders| - 1, AgainOf(show, orders);
      && |again| == |orders| && again[..k] == AgainOf(show, orders[..k])
      && again[k] == RereadOrder(RealFloats(show), orders[k])
  {
    hide RereadOrder, RealFloats;
  }

  lemma {:induction false} LinesAligned(show: real -> string, opts: Options, orders: seq<Order<real>>)
    ensures var xs, ys := Lines(Reals(), opts, orders), Lines(Reals(), opts, AgainOf(show, orders));
      Aligned(xs, ys, Shifts(orders)) && (NoneMoves(xs, ys) <==> AllKeepGroups(opts, orders))
    decreases |orders|
  {
    if orders != [] {
      var k, again := |orders| - 1, AgainOf(show, orders);
      LinesAligned(show, opts, orders[..k]);
      OrderAligned(show, opts, orders[k]);
      AgainStep(show, orders);
      AllKeepGroupsStep(opts, orders);
      hide Aligned, NoneMoves, AllKeepGroups, OrderKeepsGroups, OrderLines, OrderShifts, AgainOf, RereadOrder;
      AlignedAppend(Lines(Reals(), opts, orders[..k]), Lines(Reals(), opts, again[..k]), Shifts(orders[..k]),
                    OrderLines(Reals(), opts, orders[k]), OrderLines(Reals(), opts, again[k]), OrderShifts(orders[k]));
    }
  }

  // ---- counts ----

  /** The discounted group only loses tickets, the free one only gains them, and both stand still only if all do. */
  lemma {:induction false} CountsSettle(xs: seq<Line<real>>, ys: seq<Line<real>>)
    requires |xs| == |ys| && forall i | 0 <= i < |xs| :: Settles(xs[i].group, ys[i].group)
    ensures CountIn(ys, GroupDiscounted()) <= CountIn(xs, GroupDiscounted())
    ensures CountIn(xs, GroupFree()) <= CountIn(ys, GroupFree())
    ensures (CountIn(xs, GroupDiscounted()) == CountIn(ys, GroupDiscounted())
             && CountIn(xs, GroupFree()) == CountIn(ys, GroupFree())) ==> NoneMoves(xs, ys)
    decreases |xs|
  {
    hide GroupDiscounted, GroupFree;
    if xs != [] {
      var n := |xs| - 1;
      CountsSettle(xs[..n], ys[..n]);
      assert Settles(xs[n].group, ys[n].group);
      if NoneMoves(xs[..n], ys[..n]) && xs[n].group == ys[n].group { NoneMovesStep(xs, ys); }
    }
  }

  lemma NoneMovesStep(xs: seq<Line<real>>, ys: seq<Line<real>>)
    requires |xs| == |ys| > 0
    ensures var n := |xs| - 1;
      NoneMoves(xs, ys) <==> NoneMoves(xs[..n], ys[..n]) && xs[n].group == ys[n].group
  {
    var n := |xs| - 1;
    if NoneMoves(xs[..n], ys[..n]) && xs[n].group == ys[n].group {
      forall i | 0 <= i < |xs| ensures xs[i].group == ys[i].group {
        if i < n { assert xs[..n][i].group == ys[..n][i].group; }
      }
    }
  }

  lemma {:induction false} UnmovedCounts(xs: seq<Line<real>>, ys: seq<Line<real>>, g: string)
    requires |xs| == |ys| && NoneMoves(xs, ys)
    ensures CountIn(xs, g) == CountIn(ys, g)
    decreases |xs|
  {
    if xs != [] {
      NoneMovesStep(xs, ys);
      UnmovedCounts(xs[..|xs| - 1], ys[..|ys| - 1], g);
    }
  }

  ghost predicate SameCounting(xs: seq<Line<real>>, ys: seq<Line<real>>) {
    forall g: string :: CountIn(xs, g) == CountIn(ys, g)
  }

  lemma CountingIff(xs: seq<Line<real>>, ys: seq<Line<real>>, shifts: seq<real>)
    requires Aligned(xs, ys, shifts)
    ensures SameCounting(xs, ys) <==> NoneMoves(xs, ys)
  {
    CountsSettle(xs, ys);
    hide CountIn, Settles, GroupDiscounted, GroupFree;
    if SameCounting(xs, ys) {
      assert CountIn(xs, GroupDiscounted()) == CountIn(ys, GroupDiscounted());
      assert CountIn(xs, GroupFree()) == CountIn(ys, GroupFree());
    }
    if NoneMoves(xs, ys) {
      forall g: string ensures CountIn(xs, g) == CountIn(ys, g) { UnmovedCounts(xs, ys, g); }
    }
  }

  /** Every group has as many tickets after a restart as before exactly when no ticket changes group. */
  lemma GroupCountsIff(show: real -> string, opts: Options, r: Orders<real>)
    ensures var xs := Lines(Reals(), opts, r.orders);
      var ys := Lines(Reals(), opts, RereadOrders(RealFloats(show), r).orders);
      && |xs| == |ys|
      && (SameCounting(xs, ys) <==> NoneMoves(xs, ys))
      && (NoneMoves(xs, ys) <==> AllKeepGroups(opts, r.orders))
  {
    AgainIs(show, r);
    LinesAligned(show, opts, r.orders);
    hide Lines, SameCounting, AllKeepGroups, RereadOrders, AgainOf;
    CountingIff(Lines(Reals(), opts, r.orders), Lines(Reals(), opts, AgainOf(show, r.orders)), Shifts(r.orders));
  }

  lemma AgainIs(show: real -> string, r: Orders<real>)
    ensures RereadOrders(RealFloats(show), r).orders == AgainOf(show, r.orders)
  {
    hide RereadOrder, RealFloats;
  }

  // ---- incomes ----

  /** What rounding adds to a group's income. */
  function DriftIn(xs: seq<Line<real>>, shifts: seq<real>, g: string): real
    requires |xs| == |shifts|
  {
    if xs == [] then 0.0
    else
      var n := |xs| - 1;
      DriftIn(xs[..n], shifts[..n], g) + if xs[n].group == g then shifts[n] else 0.0
  }

  lemma {:induction false} IncomeDrifts(xs: seq<Line<real>>, ys: seq<Line<real>>, shifts: seq<real>, g: string)
    requires Aligned(xs, ys, shifts) && NoneMoves(xs, ys)
    ensures IncomeIn(Reals(), ys, g) == IncomeIn(Reals(), xs, g) + DriftIn(xs, shifts, g)
    decreases |xs|
  {
    hide Settles;
    if xs != [] {
      var n := |xs| - 1;
      NoneMovesStep(xs, ys);
      IncomeDrifts(xs[..n], ys[..n], shifts[..n], g);
    }
  }

  ghost predicate NoneDrifts(xs: seq<Line<real>>, shifts: seq<real>)
    requires |xs| == |shifts|
  {
    forall g: string :: DriftIn(xs, shifts, g) == 0.0
  }

  /** In every group the fractions of a cent that rounding adds and takes, excluding VAT, cancel out. */
  ghost predicate NoDrift(opts: Options, orders: seq<Order<real>>)
    requires |Lines(Reals(), opts, orders)| == |Shifts(orders)|
  {
    NoneDrifts(Lines(Reals(), opts, orders), Shifts(orders))
  }

  lemma {:induction false} ShiftsFit(opts: Options, orders: seq<Order<real>>)
    ensures |Lines(Reals(), opts, orders)| == |Shifts(orders)|
    decreases |orders|
  {
    if orders != [] { ShiftsFit(opts, orders[..|orders| - 1]); }
  }

  lemma SameGroupsIff(xs: seq<Line<real>>, ys: seq<Line<real>>, shifts: seq<real>)
    requires Aligned(xs, ys, shifts)
    ensures SameGroups(Reals(), xs, ys) <==> NoneMoves(xs, ys) && NoneDrifts(xs, shifts)
  {
    CountingIff(xs, ys, shifts);
    hide CountIn, IncomeIn, DriftIn, NoneMoves, Settles;
    if SameGroups(Reals(), xs, ys) {
      assert forall g: string :: CountIn(xs, g) == CountIn(ys, g);
      assert SameCounting(xs, ys);
      forall g: string ensures DriftIn(xs, shifts, g) == 0.0 {
        IncomeDrifts(xs, ys, shifts, g);
        assert IncomeIn(Reals(), xs, g) == IncomeIn(Reals(), ys, g);
      }
    }
    if NoneMoves(xs, ys) && NoneDrifts(xs, shifts) {
      forall g: string
        ensures CountIn(xs, g) == CountIn(ys, g) && IncomeIn(Reals(), xs, g) == IncomeIn(Reals(), ys, g)
      {
        IncomeDrifts(xs, ys, shifts, g);
        assert DriftIn(xs, shifts, g) == 0.0;
        assert SameCounting(xs, ys);
      }
    }
  }

  /**
   The stored orders give the stored summary exactly when rounding moves no ticket to another group and
   what it adds to each group's income cancels out.
   */
  lemma SummaryKeptIff(show: real -> string, opts: Options, r: Orders<real>)
    ensures |Lines(Reals(), opts, r.orders)| == |Shifts(r.orders)|
    ensures SummaryOf(Reals(), opts, RereadOrders(RealFloats(show), r)) == SummaryOf(Reals(), opts, r) <==>
      AllKeepGroups(opts, r.orders) && NoDrift(opts, r.orders)
  {
    ShiftsFit(opts, r.orders);
    AgainIs(show, r);
    LinesAligned(show, opts, r.orders);
    hide SummaryOf, Lines, SameGroups, AllKeepGroups, RereadOrders, RealFloats, AgainOf, DriftIn, Shifts, NoneMoves,
         SameCounts, Aligned, NoneDrifts;
    ResummarisedIff(Reals(), RealFloats(show), opts, r);
    SameGroupsIff(Lines(Reals(), opts, r.orders), Lines(Reals(), opts, AgainOf(show, r.orders)), Shifts(r.orders));
  }

  // ---- totals in whole cents ----

  /** Every ticket was sold for whole cents; list prices may be anything. */
  predicate WholeTotals(orders: seq<Order<real>>) {
    forall i, j | 0 <= i < |orders| && 0 <= j < |orders[i].tickets| :: WholeCents(orders[i].tickets[j].priceTotal)
  }

  lemma KeptIsKeepsGroup(opts: Options, t: Ticket<real>)
    requires WholeCents(t.priceTotal)
    ensures Kept(opts, t) <==> KeepsGroup(opts, t)
  {
    ToCentsIsNearest(t.priceTotal);
    if t.priceTotal >= t.price { ToCentsMonotone(t.price, t.priceTotal); }
    hide ToCents, WholeCents, CleanName, GroupDiscounted, GroupFree, Hundredths;
  }

  lemma AllKeptIff(opts: Options, orders: seq<Order<real>>)
    requires WholeTotals(orders)
    ensures AllKept(opts, orders) <==> AllKeepGroups(opts, orders)
  {
    hide WholeCents, Kept, KeepsGroup;
    forall i, j | 0 <= i < |orders| && 0 <= j < |orders[i].tickets|
      ensures Kept(opts, orders[i].tickets[j]) <==> KeepsGroup(opts, orders[i].tickets[j])
    {
      KeptIsKeepsGroup(opts, orders[i].tickets[j]);
    }
    if AllKeepGroups(opts, orders) {
      forall i, j | 0 <= i < |orders| && 0 <= j < |orders[i].tickets| ensures Kept(opts, orders[i].tickets[j]) {
        assert OrderKeepsGroups(opts, orders[i]);
      }
    }
  }

  lemma NoShift(order: Order<real>, t: Ticket<real>)
    requires WholeCents(t.priceTotal)
    ensures Shift(order, t) == 0.0
  {
    ToCentsIsNearest(t.priceTotal);
    hide ToCents, WholeCents, Hundredths;
  }

  lemma {:induction false} NoShifts(orders: seq<Order<real>>)
    requires WholeTotals(orders)
    ensures forall i | 0 <= i < |Shifts(orders)| :: Shifts(orders)[i] == 0.0
    decreases |orders|
  {
    hide WholeCents, Shift;
    if orders != [] {
      var k := |orders| - 1;
      NoShifts(orders[..k]);
      forall j | 0 <= j < |orders[k].tickets| ensures Shift(orders[k], orders[k].tickets[j]) == 0.0 {
        NoShift(orders[k], orders[k].tickets[j]);
      }
    }
  }

  lemma {:induction false} NoShiftNoDrift(xs: seq<Line<real>>, shifts: seq<real>, g: string)
    requires |xs| == |shifts| && forall i | 0 <= i < |shifts| :: shifts[i] == 0.0
    ensures DriftIn(xs, shifts, g) == 0.0
    decreases |xs|
  {
    if xs != [] { NoShiftNoDrift(xs[..|xs| - 1], shifts[..|xs| - 1], g); }
  }

  /** With totals in whole cents nothing can cancel out: the summary is kept exactly when every ticket is. */
  lemma WholeTotalsKeptIff(show: real -> string, opts: Options, r: Orders<real>)
    requires WholeTotals(r.orders)
    ensures SummaryOf(Reals(), opts, RereadOrders(RealFloats(show), r)) == SummaryOf(Reals(), opts, r) <==>
      AllKept(opts, r.orders)
  {
    SummaryKeptIff(show, opts, r);
    AllKeptIff(opts, r.orders);
    NoShifts(r.orders);
    hide SummaryOf, Lines, AllKeepGroups, AllKept, RereadOrders, RealFloats, DriftIn, Shifts, WholeTotals;
    var xs := Lines(Reals(), opts, r.orders);
    forall g: string ensures DriftIn(xs, Shifts(r.orders), g) == 0.0 { NoShiftNoDrift(xs, Shifts(r.orders), g); }
  }

  /** For any totals: rounding shows on no ticket exactly when all totals are in whole cents and the summary is kept. */
  lemma AllKeptSummaryIff(show: real -> string, opts: Options, r: Orders<real>)
    ensures AllKept(opts, r.orders) <==>
      WholeTotals(r.orders) &&
      SummaryOf(Reals(), opts, RereadOrders(RealFloats(show), r)) == SummaryOf(Reals(), opts, r)
  {
    assert AllKept(opts, r.orders) ==> WholeTotals(r.orders) by { hide CleanName, WholeCents, ToCents; }
    hide SummaryOf, AllKept, WholeTotals, RereadOrders, RealFloats;
    if WholeTotals(r.orders) { WholeTotalsKeptIff(show, opts, r); }
  }

  // ---- the whole way ----

  /** Fetch, build, store, restart, load and summarise again, over exact reals: exactly when nothing changed. */
  lemma LoadedSummaryIff(show: real -> string, z: Gzip, opts: Options, j: Json, s: Snapshot<real>)
    requires Decodes(RealFloats(show), OrdersTy(), j) && s.orders == Decoded(RealFloats(show), OrdersTy(), j)
    requires IsBuilt(Reals(), RealFloats(show), opts, s)
    requires FitsInt64(s.durationMs) && s.summary.orders <= MAX_INT64 && s.summary.tickets <= MAX_INT64
    requires forall pk | pk in opts.sponsorPks :: FitsInt64(pk)
    requires Unpacks(RealFloats(show), z, s) && TextReadable(RealFloats(show), SummaryVal(s.summary))
    requires TextReadable(RealFloats(show), s.orders)
    ensures var n := RealFloats(show);
      var loaded := DecodeSnapshot(n, z, EncodeSnapshot(n, z, s));
      var fetched := OrdersOf(n, s.orders).orders;
      && loaded.Some? && |Lines(Reals(), opts, fetched)| == |Shifts(fetched)|
      && (SummaryOf(Reals(), opts, OrdersOf(n, loaded.value.orders)) == loaded.value.summary <==>
          AllKeepGroups(opts, fetched) && NoDrift(opts, fetched))
  {
    var n := RealFloats(show);
    hide RealFloats, OrdersTy, SummaryVal, Unpacks, Decodes, DecodeSnapshot, EncodeSnapshot, SummaryOf, OrdersOf,
         SameGroups, SameCounts, RereadOrders, AllKeepGroups, NoDrift, Lines, Shifts;
    LoadedAgain(Reals(), n, z, opts, j, s);
    SummaryKeptIff(show, opts, OrdersOf(n, s.orders));
  }

  // ---- incomes that cancel out ----

  function Sold(price: real): Ticket<real> {
    Ticket(0, "Late", "", "", "", price, price, [])
  }

  /** Two tickets of one group, 0.4 cents over and 0.4 cents under: neither is kept, their summary is. */
  function Cancelling(): Orders<real> {
    Orders("", [Order("PAID", true, 0.0, [Sold(1.004), Sold(0.996)])])
  }

  lemma FractionsRound()
    ensures ToCents(1.004) == 1.0 && ToCents(0.996) == 1.0 && !WholeCents(1.004) && !WholeCents(0.996)
  {
    assert 1.004 * 100.0 == 100.4 && (100.4).Floor == 100;
    assert 0.996 * 100.0 == 99.6 && (99.6).Floor == 99;
  }

  lemma CancellingKept(show: real -> string, opts: Options)
    ensures var r := Cancelling();
      && SummaryOf(Reals(), opts, RereadOrders(RealFloats(show), r)) == SummaryOf(Reals(), opts, r)
      && !AllKept(opts, r.orders)
  {
    var r := Cancelling();
    assert |r.orders| == 1 && r.orders[0].tickets == [Sold(1.004), Sold(0.996)];
    FractionsRound();
    hide SummaryOf, RereadOrders, RealFloats, Lines, Shifts, NoDrift, CleanName, ToCents, WholeCents, Cancelling;
    SummaryKeptIff(show, opts, r);
    TwoCancel(opts);
    assert !Kept(opts, r.orders[0].tickets[0]);
    assert KeepsGroup(opts, Sold(1.004)) && KeepsGroup(opts, Sold(0.996));
    hide KeepsGroup, Kept;
    assert OrderKeepsGroups(opts, r.orders[0]);
  }

  lemma TwoDrift(xs: seq<Line<real>>, shifts: seq<real>, g: string)
    requires |xs| == |shifts| == 2 && xs[0].group == xs[1].group && shifts[0] + shifts[1] == 0.0
    ensures DriftIn(xs, shifts, g) == 0.0
  {
    assert DriftIn(xs[..1][..0], shifts[..1][..0], g) == 0.0;
    assert DriftIn(xs[..1], shifts[..1], g) == if xs[0].group == g then shifts[0] else 0.0;
  }

  lemma TwoCancel(opts: Options)
    ensures var r := Cancelling();
      && |Lines(Reals(), opts, r.orders)| == |Shifts(r.orders)| && NoDrift(opts, r.orders)
  {
    var orders := Cancelling().orders;
    var order := orders[0];
    assert orders[..0] == [] && Lines(Reals(), opts, orders[..0]) == [] && Shifts(orders[..0]) == [];
    var xs, zs := OrderLines(Reals(), opts, order), OrderShifts(order);
    assert Lines(Reals(), opts, orders) == xs && Shifts(orders) == zs by {
      hide LineOf, Shift, OrderLines, OrderShifts;
    }
    FractionsRound();
    SameName(opts, order);
    hide LineOf, ToCents, WholeCents, Lines, Shifts;
    assert zs[0] == -0.004 && zs[1] == 0.004;
    forall g: string ensures DriftIn(xs, zs, g) == 0.0 { TwoDrift(xs, zs, g); }
  }

  /** Both are sold at their list price under one name. */
  lemma SameName(opts: Options, order: Order<real>)
    ensures LineOf(Reals(), opts, order, Sold(1.004)).group == LineOf(Reals(), opts, order, Sold(0.996)).group
  {
    hide LineOf, CleanName;
    LineParts(opts, order, Sold(1.004));
    LineParts(opts, order, Sold(0.996));
  }
}
