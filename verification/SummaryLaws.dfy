/**
 What the numbers in a summary mean.

 The first half holds for any arithmetic: each entry of each map is characterised on its own,
 as a count or an in-order sum over the tickets that belong to it. The second half is about
 exact reals: merging, permutation and conservation.
 */
module SummaryLaws {
  import opened Wrappers
  import opened Sizes
  import opened TicketButler
  import opened Aggregate

  // ---- per key, for any arithmetic ----

  /** The tickets of a payload in payload order, each as the line it posts. */
  function Lines<F>(ar: Arith<F>, opts: Options, orders: seq<Order<F>>): seq<Line<F>> {
    if orders == [] then []
    else Lines(ar, opts, orders[..|orders| - 1]) + OrderLines(ar, opts, orders[|orders| - 1])
  }

  function StatesIn<F>(orders: seq<Order<F>>, state: string): nat {
    if orders == [] then 0
    else StatesIn(orders[..|orders| - 1], state) + if orders[|orders| - 1].state == state then 1 else 0
  }

  function CountIn<F>(lines: seq<Line<F>>, group: string): nat {
    if lines == [] then 0
    else CountIn(lines[..|lines| - 1], group) + if lines[|lines| - 1].group == group then 1 else 0
  }

  /** The group's incomes added up from zero in payload order. */
  function IncomeIn<F>(ar: Arith<F>, lines: seq<Line<F>>, group: string): F {
    if lines == [] then ar.zero
    else
      var sum := IncomeIn(ar, lines[..|lines| - 1], group);
      if lines[|lines| - 1].group == group then ar.add(sum, lines[|lines| - 1].income) else sum
  }

  predicate Sells<F>(line: Line<F>, product: string) {
    line.merch.Some? && line.merch.value.0 == product
  }

  function SalesIn<F>(lines: seq<Line<F>>, product: string): nat {
    if lines == [] then 0
    else SalesIn(lines[..|lines| - 1], product) + if Sells(lines[|lines| - 1], product) then 1 else 0
  }

  function MerchIn<F>(lines: seq<Line<F>>, product: string): SizeCounts {
    if lines == [] then NONE
    else
      var sum := MerchIn(lines[..|lines| - 1], product);
      var last := lines[|lines| - 1];
      if Sells(last, product) then sum.Plus(last.merch.value.1) else sum
  }

  function TshirtsIn<F>(lines: seq<Line<F>>): SizeCounts {
    if lines == [] then NONE
    else TshirtsIn(lines[..|lines| - 1]).Plus(lines[|lines| - 1].tshirt)
  }

  ghost predicate StatesOk<F>(m: map<string, nat>, orders: seq<Order<F>>) {
    && (forall k :: k in m <==> StatesIn(orders, k) > 0)
    && (forall k | k in m :: m[k] == StatesIn(orders, k))
  }

  ghost predicate GroupsOk<F>(ar: Arith<F>, m: map<string, TicketGroup<F>>, lines: seq<Line<F>>) {
    && (forall k :: k in m <==> CountIn(lines, k) > 0)
    && (forall k | k in m :: m[k] == TicketGroup(CountIn(lines, k), IncomeIn(ar, lines, k)))
    && (forall k | k !in m :: IncomeIn(ar, lines, k) == ar.zero)
  }

  ghost predicate MerchOk<F>(m: map<string, SizeCounts>, lines: seq<Line<F>>) {
    && (forall k :: k in m <==> SalesIn(lines, k) > 0)
    && (forall k | k in m :: m[k] == MerchIn(lines, k))
    && (forall k | k !in m :: MerchIn(lines, k) == NONE)
  }

  /** The summary says exactly this about the orders and tickets posted so far. */
  ghost predicate Describes<F>(ar: Arith<F>, s: Summary<F>, orders: seq<Order<F>>, lines: seq<Line<F>>) {
    && s.orders == |orders| && s.tickets == |lines|
    && StatesOk(s.ordersByState, orders)
    && GroupsOk(ar, s.ticketGroups, lines)
    && MerchOk(s.merch, lines)
    && s.tshirts == TshirtsIn(lines)
  }

  lemma GroupPosted<F>(ar: Arith<F>, m: map<string, TicketGroup<F>>, lines: seq<Line<F>>, line: Line<F>)
    requires GroupsOk(ar, m, lines)
    ensures GroupsOk(ar, PostGroup(ar, m, line.group, line.income), lines + [line])
  {
    var all := lines + [line];
    assert all[..|all| - 1] == lines;
  }

  lemma MerchPosted<F>(m: map<string, SizeCounts>, lines: seq<Line<F>>, line: Line<F>)
    requires MerchOk(m, lines)
    ensures MerchOk(PostMerch(m, line.merch), lines + [line])
  {
    var all := lines + [line];
    assert all[..|all| - 1] == lines;
  }

  lemma PostDescribes<F>(ar: Arith<F>, s: Summary<F>, orders: seq<Order<F>>, lines: seq<Line<F>>, line: Line<F>)
    requires Describes(ar, s, orders, lines)
    ensures Describes(ar, Post(ar, s, line), orders, lines + [line])
  {
    hide GroupsOk, MerchOk, StatesOk, PostGroup, PostMerch;
    var all := lines + [line];
    assert all[..|all| - 1] == lines;
    GroupPosted(ar, s.ticketGroups, lines, line);
    MerchPosted(s.merch, lines, line);
  }

  lemma {:induction false} PostLinesDescribes<F>(
    ar: Arith<F>, s: Summary<F>, orders: seq<Order<F>>, lines: seq<Line<F>>, more: seq<Line<F>>)
    requires Describes(ar, s, orders, lines)
    ensures Describes(ar, PostLines(ar, s, more), orders, lines + more)
    decreases |more|
  {
    hide Describes, Post;
    if more == [] {
      assert lines + more == lines;
    } else {
      var init, last := more[..|more| - 1], more[|more| - 1];
      PostLinesDescribes(ar, s, orders, lines, init);
      PostDescribes(ar, PostLines(ar, s, init), orders, lines + init, last);
      assert lines + more == lines + init + [last];
    }
  }

  lemma CountOrderDescribes<F>(ar: Arith<F>, s: Summary<F>, orders: seq<Order<F>>, lines: seq<Line<F>>, order: Order<F>)
    requires Describes(ar, s, orders, lines)
    ensures Describes(ar, CountOrder(s, order.state), orders + [order], lines)
  {
    var all := orders + [order];
    assert all[..|all| - 1] == orders;
  }

  lemma NothingDescribed<F>(ar: Arith<F>, uuid: string)
    ensures Describes(ar, Empty(uuid), [], [])
  {
  }

  lemma {:induction false} PostOrdersDescribes<F>(ar: Arith<F>, opts: Options, uuid: string, orders: seq<Order<F>>)
    ensures Describes(ar, PostOrders(ar, opts, Empty(uuid), orders), orders, Lines(ar, opts, orders))
  {
    hide PostLines, OrderLines, GroupsOk, MerchOk, StatesOk, CountOrder;
    if orders == [] {
      NothingDescribed(ar, uuid);
    } else {
      hide Describes;
      var init, last := orders[..|orders| - 1], orders[|orders| - 1];
      PostOrdersDescribes(ar, opts, uuid, init);
      var s := PostOrders(ar, opts, Empty(uuid), init);
      var lines := Lines(ar, opts, init);
      CountOrderDescribes(ar, s, init, lines, last);
      PostLinesDescribes(ar, CountOrder(s, last.state), init + [last], lines, OrderLines(ar, opts, last));
      assert init + [last] == orders;
    }
  }

  /**
   Every entry of a summary, per key: how many orders have a state, how many tickets are finally
   in a group and what they add up to in payload order, which sizes of a product were sold.
   */
  lemma SummaryPerKey<F>(ar: Arith<F>, opts: Options, resp: Orders<F>)
    ensures Describes(ar, SummaryOf(ar, opts, resp), resp.orders, Lines(ar, opts, resp.orders))
  {
    PostOrdersDescribes(ar, opts, resp.uuid, resp.orders);
  }

  // ---- exact reals ----

  /** Division by zero, which float64 answers with an infinity, is outside the exact model. */
  function Reals(): Arith<real> {
    Arith(0.0, 1.0,
          (x: real, y: real) => x + y,
          (x: real, y: real) => if y == 0.0 then 0.0 else x / y,
          (x: real, y: real) => x == y,
          (x: real, y: real) => x < y)
  }

  lemma OneTicketPosts<F>(ar: Arith<F>, opts: Options, uuid: string, order: Order<F>)
    requires |order.tickets| == 1
    ensures SummaryOf(ar, opts, Orders(uuid, [order]))
         == PostLines(ar, CountOrder(Empty(uuid), order.state), OrderLines(ar, opts, order))
  {
    hide OrderLines, PostOrders, PostLines;
    NoOrders(ar, opts, Empty(uuid), [order][..0]);
    PostNextOrder(ar, opts, Empty(uuid), [order], 0);
    assert [order][..1] == [order];
  }

  lemma OneLine<F>(ar: Arith<F>, s: Summary<F>, line: Line<F>)
    ensures PostLines(ar, s, [line]) == Post(ar, s, line)
  {
    hide PostLines, Post;
    NoLines(ar, s, [line][..0]);
    NextLine(ar, s, [line], 0);
    assert [line][..1] == [line];
  }

  /** The summary of one order with one ticket. */
  lemma OneTicket<F>(ar: Arith<F>, opts: Options, uuid: string, order: Order<F>, t: Ticket<F>)
    requires order.tickets == [t]
    ensures var s, line := SummaryOf(ar, opts, Orders(uuid, [order])), LineOf(ar, opts, order, t);
      && s == Post(ar, CountOrder(Empty(uuid), order.state), line)
      && s.tickets == 1
      && s.ticketGroups == map[line.group := TicketGroup(1, ar.add(ar.zero, line.income))]
  {
    assert OrderLines(ar, opts, order) == [LineOf(ar, opts, order, t)];
    hide LineOf, OrderLines, SummaryOf, PostLines;
    OneTicketPosts(ar, opts, uuid, order);
    OneLine(ar, CountOrder(Empty(uuid), order.state), LineOf(ar, opts, order, t));
  }

  lemma NoOrders<F>(ar: Arith<F>, opts: Options, s: Summary<F>, orders: seq<Order<F>>)
    requires orders == []
    ensures PostOrders(ar, opts, s, orders) == s
  {
  }

  // ---- merging maps ----

  function AddTo<V>(m: map<string, V>, k: string, v: V, plus: (V, V) -> V): map<string, V> {
    m[k := if k in m then plus(m[k], v) else v]
  }

  function MergeWith<V>(a: map<string, V>, b: map<string, V>, plus: (V, V) -> V): map<string, V> {
    map k | k in a.Keys + b.Keys ::
      if k !in a then b[k] else if k !in b then a[k] else plus(a[k], b[k])
  }

  lemma AddToMerge<V>(a: map<string, V>, b: map<string, V>, k: string, v: V, plus: (V, V) -> V)
    requires forall x, y, z :: plus(plus(x, y), z) == plus(x, plus(y, z))
    ensures MergeWith(a, AddTo(b, k, v, plus), plus) == AddTo(MergeWith(a, b, plus), k, v, plus)
  {
  }

  lemma MergeWithAssociates<V>(
    a: map<string, V>, b: map<string, V>, c: map<string, V>, plus: (V, V) -> V)
    requires forall x, y, z :: plus(plus(x, y), z) == plus(x, plus(y, z))
    ensures MergeWith(MergeWith(a, b, plus), c, plus) == MergeWith(a, MergeWith(b, c, plus), plus)
  {
  }

  lemma MergeWithCommutes<V>(a: map<string, V>, b: map<string, V>, plus: (V, V) -> V)
    requires forall x, y :: plus(x, y) == plus(y, x)
    ensures MergeWith(a, b, plus) == MergeWith(b, a, plus)
  {
  }

  lemma MergeWithEmpty<V>(a: map<string, V>, plus: (V, V) -> V)
    ensures MergeWith(a, map[], plus) == a
  {
  }

  function PlusNat(x: nat, y: nat): nat { x + y }

  function PlusSizes(x: SizeCounts, y: SizeCounts): SizeCounts { x.Plus(y) }

  function PlusGroup(x: TicketGroup<real>, y: TicketGroup<real>): TicketGroup<real> {
    TicketGroup(x.count + y.count, x.incomeExVat + y.incomeExVat)
  }

  /** The pointwise merge of two summaries of one event. */
  function Merge(a: Summary<real>, b: Summary<real>): Summary<real> {
    Summary(a.schemaVersion, a.eventUuid, a.orders + b.orders, a.tickets + b.tickets,
            MergeWith(a.ordersByState, b.ordersByState, PlusNat),
            MergeWith(a.ticketGroups, b.ticketGroups, PlusGroup),
            a.tshirts.Plus(b.tshirts),
            MergeWith(a.merch, b.merch, PlusSizes))
  }

  lemma MergeCommutes(a: Summary<real>, b: Summary<real>)
    requires a.eventUuid == b.eventUuid && a.schemaVersion == b.schemaVersion
    ensures Merge(a, b) == Merge(b, a)
  {
    hide MergeWith;
    MergeWithCommutes(a.ordersByState, b.ordersByState, PlusNat);
    MergeWithCommutes(a.ticketGroups, b.ticketGroups, PlusGroup);
    MergeWithCommutes(a.merch, b.merch, PlusSizes);
  }

  lemma MergeAssociates(a: Summary<real>, b: Summary<real>, c: Summary<real>)
    ensures Merge(Merge(a, b), c) == Merge(a, Merge(b, c))
  {
    hide MergeWith;
    MergeWithAssociates(a.ordersByState, b.ordersByState, c.ordersByState, PlusNat);
    MergeWithAssociates(a.ticketGroups, b.ticketGroups, c.ticketGroups, PlusGroup);
    MergeWithAssociates(a.merch, b.merch, c.merch, PlusSizes);
  }

  lemma PostGroupIsAdd(m: map<string, TicketGroup<real>>, group: string, income: real)
    ensures PostGroup(Reals(), m, group, income) == AddTo(m, group, TicketGroup(1, income), PlusGroup)
  {
  }

  lemma PostMerchIsAdd(m: map<string, SizeCounts>, product: string, size: SizeCounts)
    ensures PostMerch(m, Some((product, size))) == AddTo(m, product, size, PlusSizes)
  {
    assert NONE.Plus(size) == size;
  }

  lemma PostMerge(a: Summary<real>, b: Summary<real>, line: Line<real>)
    ensures Post(Reals(), Merge(a, b), line) == Merge(a, Post(Reals(), b, line))
  {
    hide MergeWith, AddTo;
    PostGroupIsAdd(b.ticketGroups, line.group, line.income);
    PostGroupIsAdd(Merge(a, b).ticketGroups, line.group, line.income);
    AddToMerge(a.ticketGroups, b.ticketGroups, line.group, TicketGroup(1, line.income), PlusGroup);
    if line.merch.Some? {
      var (product, size) := line.merch.value;
      PostMerchIsAdd(b.merch, product, size);
      PostMerchIsAdd(Merge(a, b).merch, product, size);
      AddToMerge(a.merch, b.merch, product, size, PlusSizes);
    }
  }

  lemma {:induction false} PostLinesMerge(a: Summary<real>, b: Summary<real>, lines: seq<Line<real>>)
    ensures PostLines(Reals(), Merge(a, b), lines) == Merge(a, PostLines(Reals(), b, lines))
    decreases |lines|
  {
    if lines != [] {
      var init := lines[..|lines| - 1];
      PostLinesMerge(a, b, init);
      PostMerge(a, PostLines(Reals(), b, init), lines[|lines| - 1]);
    }
  }

  lemma PostStateIsAdd(s: Summary<real>, state: string)
    ensures CountOrder(s, state)
         == s.(orders := s.orders + 1, ordersByState := AddTo(s.ordersByState, state, 1, PlusNat))
  {
  }

  lemma CountOrderMerge(a: Summary<real>, b: Summary<real>, state: string)
    ensures CountOrder(Merge(a, b), state) == Merge(a, CountOrder(b, state))
  {
    hide MergeWith, AddTo, CountOrder;
    PostStateIsAdd(b, state);
    PostStateIsAdd(Merge(a, b), state);
    AddToMerge(a.ordersByState, b.ordersByState, state, 1, PlusNat);
  }

  lemma {:induction false} PostOrdersMerge(opts: Options, a: Summary<real>, b: Summary<real>, orders: seq<Order<real>>)
    ensures PostOrders(Reals(), opts, Merge(a, b), orders) == Merge(a, PostOrders(Reals(), opts, b, orders))
    decreases |orders|
  {
    hide Merge, CountOrder, PostLines, OrderLines;
    if orders != [] {
      var init, last := orders[..|orders| - 1], orders[|orders| - 1];
      PostOrdersMerge(opts, a, b, init);
      var s := PostOrders(Reals(), opts, b, init);
      CountOrderMerge(a, s, last.state);
      PostLinesMerge(a, CountOrder(s, last.state), OrderLines(Reals(), opts, last));
    }
  }

  lemma {:induction false} PostOrdersAppend(opts: Options, s: Summary<real>, a: seq<Order<real>>, b: seq<Order<real>>)
    ensures PostOrders(Reals(), opts, s, a + b) == PostOrders(Reals(), opts, PostOrders(Reals(), opts, s, a), b)
    decreases |b|
  {
    hide PostOrder;
    if b == [] {
      assert a + b == a;
    } else {
      PostOrdersAppend(opts, s, a, b[..|b| - 1]);
      assert (a + b)[..|a + b| - 1] == a + b[..|b| - 1];
    }
  }

  /** A summary of orders alone; the event id is carried along unchanged. */
  function Total(opts: Options, uuid: string, orders: seq<Order<real>>): Summary<real> {
    SummaryOf(Reals(), opts, Orders(uuid, orders))
  }

  lemma TotalHeader(opts: Options, uuid: string, orders: seq<Order<real>>)
    ensures Total(opts, uuid, orders).eventUuid == uuid
    ensures Total(opts, uuid, orders).schemaVersion == SCHEMA_VERSION
    decreases |orders|
  {
    if orders != [] {
      TotalHeader(opts, uuid, orders[..|orders| - 1]);
      var s := CountOrder(Total(opts, uuid, orders[..|orders| - 1]), orders[|orders| - 1].state);
      PostLinesHeader(s, OrderLines(Reals(), opts, orders[|orders| - 1]));
    }
  }

  lemma {:induction false} PostLinesHeader(s: Summary<real>, lines: seq<Line<real>>)
    ensures PostLines(Reals(), s, lines).eventUuid == s.eventUuid
    ensures PostLines(Reals(), s, lines).schemaVersion == s.schemaVersion
    decreases |lines|
  {
    if lines != [] { PostLinesHeader(s, lines[..|lines| - 1]); }
  }

  lemma MergeEmpty(s: Summary<real>, uuid: string)
    ensures Merge(s, Empty(uuid)) == s
  {
    hide MergeWith;
    MergeWithEmpty(s.ordersByState, PlusNat);
    MergeWithEmpty(s.ticketGroups, PlusGroup);
    MergeWithEmpty(s.merch, PlusSizes);
  }

  /** Summarising is a homomorphism: two order lists one after the other give the merge of their summaries. */
  lemma SummaryOfConcatenation(opts: Options, uuid: string, a: seq<Order<real>>, b: seq<Order<real>>)
    ensures Total(opts, uuid, a + b) == Merge(Total(opts, uuid, a), Total(opts, uuid, b))
  {
    hide Merge, PostOrders, Empty;
    var s, e := Total(opts, uuid, a), Empty<real>(uuid);
    PostOrdersAppend(opts, e, a, b);
    MergeEmpty(s, uuid);
    PostOrdersMerge(opts, s, e, b);
  }

  lemma MoveToFront(opts: Options, uuid: string, l: seq<Order<real>>, x: Order<real>, r: seq<Order<real>>)
    ensures Total(opts, uuid, l + [x] + r) == Total(opts, uuid, [x] + l + r)
  {
    hide Merge, Total;
    SummaryOfConcatenation(opts, uuid, l + [x], r);
    SummaryOfConcatenation(opts, uuid, [x] + l, r);
    SummaryOfConcatenation(opts, uuid, l, [x]);
    SummaryOfConcatenation(opts, uuid, [x], l);
    TotalHeader(opts, uuid, l);
    TotalHeader(opts, uuid, [x]);
    MergeCommutes(Total(opts, uuid, l), Total(opts, uuid, [x]));
  }

  /** Taking one element out of two permutations of each other leaves permutations. */
  lemma PermutationWithout<T>(a: seq<T>, b: seq<T>) returns (i: nat)
    requires a != [] && multiset(a) == multiset(b)
    ensures i < |b| && b[i] == a[0]
    ensures multiset(a[1..]) == multiset(b[..i] + b[i + 1..])
    ensures b == b[..i] + [a[0]] + b[i + 1..]
  {
    assert a == [a[0]] + a[1..];
    assert a[0] in multiset(b);
    i :| 0 <= i < |b| && b[i] == a[0];
    assert b == b[..i] + [b[i]] + b[i + 1..];
    assert multiset(a) == multiset{a[0]} + multiset(a[1..]);
    assert multiset(b) == multiset(b[..i]) + multiset{b[i]} + multiset(b[i + 1..]);
    assert multiset(b[..i] + b[i + 1..]) == multiset(b) - multiset{b[i]};
  }

  /** The order of the orders does not matter. */
  lemma {:induction false} OrderPermutation(opts: Options, uuid: string, a: seq<Order<real>>, b: seq<Order<real>>)
    requires multiset(a) == multiset(b)
    ensures Total(opts, uuid, a) == Total(opts, uuid, b)
    decreases |a|
  {
    hide Merge, Total;
    if a == [] {
      assert |b| == |multiset(b)| == 0;
    } else {
      var i := PermutationWithout(a, b);
      var x, rest, l, r := a[0], a[1..], b[..i], b[i + 1..];
      OrderPermutation(opts, uuid, rest, l + r);
      MoveToFront(opts, uuid, l, x, r);
      SummaryOfConcatenation(opts, uuid, [x], rest);
      SummaryOfConcatenation(opts, uuid, [x], l + r);
      assert [x] + rest == a && [x] + (l + r) == [x] + l + r;
    }
  }

  // ---- permuting the tickets of an order ----

  lemma PostCommutes(s: Summary<real>, x: Line<real>, y: Line<real>)
    ensures Post(Reals(), Post(Reals(), s, x), y) == Post(Reals(), Post(Reals(), s, y), x)
  {
    hide Post, Merge;
    var e := Empty<real>(s.eventUuid);
    MergeEmpty(s, s.eventUuid);
    PostMerge(s, e, x);
    PostMerge(s, e, y);
    PostMerge(s, Post(Reals(), e, x), y);
    PostMerge(s, Post(Reals(), e, y), x);
    PostTwice(s.eventUuid, x, y);
  }

  lemma PostTwice(uuid: string, x: Line<real>, y: Line<real>)
    ensures var e := Empty<real>(uuid);
            Post(Reals(), Post(Reals(), e, x), y) == Post(Reals(), Post(Reals(), e, y), x)
  {
    var e := Empty<real>(uuid);
    var l, r := Post(Reals(), Post(Reals(), e, x), y), Post(Reals(), Post(Reals(), e, y), x);
    assert l.ticketGroups == r.ticketGroups;
    assert l.merch == r.merch;
  }

  lemma {:induction false} MoveToEnd(s: Summary<real>, l: seq<Line<real>>, x: Line<real>, r: seq<Line<real>>)
    ensures PostLines(Reals(), s, l + [x] + r) == Post(Reals(), PostLines(Reals(), s, l + r), x)
    decreases |r|
  {
    hide Post;
    if r == [] {
      assert l + [x] + r == l + [x] && l + r == l && (l + [x])[..|l|] == l;
    } else {
      var init, last := r[..|r| - 1], r[|r| - 1];
      MoveToEnd(s, l, x, init);
      PostCommutes(PostLines(Reals(), s, l + init), x, last);
      assert (l + [x] + r)[..|l + [x] + r| - 1] == l + [x] + init;
      assert (l + r)[..|l + r| - 1] == l + init;
    }
  }

  function TicketLines(opts: Options, order: Order<real>, ts: seq<Ticket<real>>): (lines: seq<Line<real>>)
    ensures |lines| == |ts|
    ensures forall i | 0 <= i < |ts| :: lines[i] == LineOf(Reals(), opts, order, ts[i])
  {
    OrderLines(Reals(), opts, order.(tickets := ts))
  }

  lemma TicketLinesSplit(opts: Options, order: Order<real>, l: seq<Ticket<real>>, x: Ticket<real>, r: seq<Ticket<real>>)
    ensures TicketLines(opts, order, l + [x] + r)
         == TicketLines(opts, order, l) + [LineOf(Reals(), opts, order, x)] + TicketLines(opts, order, r)
    ensures TicketLines(opts, order, l + r) == TicketLines(opts, order, l) + TicketLines(opts, order, r)
  {
    hide TicketLines, LineOf;
  }

  /** Tickets in any order within one order post the same. */
  lemma {:induction false} TicketPermutation(
    opts: Options, s: Summary<real>, order: Order<real>, a: seq<Ticket<real>>, b: seq<Ticket<real>>)
    requires multiset(a) == multiset(b)
    ensures PostLines(Reals(), s, TicketLines(opts, order, a)) == PostLines(Reals(), s, TicketLines(opts, order, b))
    decreases |a|
  {
    hide Post, LineOf, PostLines, TicketLines;
    if a == [] {
      assert |b| == |multiset(b)| == 0;
    } else {
      var i := PermutationWithout(a, b);
      var x := LineOf(Reals(), opts, order, a[0]);
      assert a == [] + [a[0]] + a[1..] && [] + a[1..] == a[1..];
      TicketLinesSplit(opts, order, [], a[0], a[1..]);
      TicketLinesSplit(opts, order, b[..i], a[0], b[i + 1..]);
      MoveToEnd(s, TicketLines(opts, order, []), x, TicketLines(opts, order, a[1..]));
      MoveToEnd(s, TicketLines(opts, order, b[..i]), x, TicketLines(opts, order, b[i + 1..]));
      TicketPermutation(opts, s, order, a[1..], b[..i] + b[i + 1..]);
    }
  }

  /** The same orders, each with its tickets in some other order. */
  ghost predicate TicketsRearranged(a: seq<Order<real>>, b: seq<Order<real>>) {
    && |a| == |b|
    && forall i | 0 <= i < |a| ::
         a[i].(tickets := []) == b[i].(tickets := []) && multiset(a[i].tickets) == multiset(b[i].tickets)
  }

  lemma {:induction false} RearrangedTickets(opts: Options, uuid: string, a: seq<Order<real>>, b: seq<Order<real>>)
    requires TicketsRearranged(a, b)
    ensures Total(opts, uuid, a) == Total(opts, uuid, b)
    decreases |a|
  {
    hide PostLines, TicketLines, OrderLines, CountOrder;
    if a != [] {
      var n := |a| - 1;
      RearrangedTickets(opts, uuid, a[..n], b[..n]);
      var s := CountOrder(Total(opts, uuid, a[..n]), a[n].state);
      TicketPermutation(opts, s, a[n], a[n].tickets, b[n].tickets);
      OrderLinesAreTicketLines(opts, a[n], a[n]);
      OrderLinesAreTicketLines(opts, a[n], b[n]);
    }
  }

  lemma OrderLinesAreTicketLines(opts: Options, order: Order<real>, other: Order<real>)
    requires order.(tickets := []) == other.(tickets := [])
    ensures OrderLines(Reals(), opts, other) == TicketLines(opts, order, other.tickets)
  {
    hide LineOf;
    assert order.(tickets := other.tickets) == other;
  }

  /** Any rearrangement of a payload, orders and tickets alike, gives the same summary. */
  lemma RearrangedPayload(opts: Options, uuid: string, a: seq<Order<real>>, b: seq<Order<real>>, c: seq<Order<real>>)
    requires multiset(a) == multiset(b) && TicketsRearranged(b, c)
    ensures SummaryOf(Reals(), opts, Orders(uuid, a)) == SummaryOf(Reals(), opts, Orders(uuid, c))
  {
    hide PostOrders;
    OrderPermutation(opts, uuid, a, b);
    RearrangedTickets(opts, uuid, b, c);
  }

  // ---- conservation ----

  /** A measure summed over the entries of a map. */
  ghost function SumBy<V>(m: map<string, V>, f: V -> real): real {
    if m == map[] then 0.0
    else
      var k :| k in m;
      f(m[k]) + SumBy(m - {k}, f)
  }

  lemma {:induction false} SumByKey<V>(m: map<string, V>, f: V -> real, k: string)
    requires k in m
    ensures SumBy(m, f) == f(m[k]) + SumBy(m - {k}, f)
    decreases |m|
  {
    var first :| first in m && SumBy(m, f) == f(m[first]) + SumBy(m - {first}, f);
    if first != k {
      SumByKey(m - {first}, f, k);
      SumByKey(m - {k}, f, first);
      assert m - {first} - {k} == m - {k} - {first};
    }
  }

  lemma SumByAdd<V>(m: map<string, V>, f: V -> real, k: string, v: V, plus: (V, V) -> V)
    requires forall x, y :: f(plus(x, y)) == f(x) + f(y)
    ensures SumBy(AddTo(m, k, v, plus), f) == SumBy(m, f) + f(v)
  {
    var n := AddTo(m, k, v, plus);
    SumByKey(n, f, k);
    assert n - {k} == m - {k};
    if k in m {
      SumByKey(m, f, k);
    } else {
      assert m - {k} == m;
    }
  }

  function CountAsReal(g: TicketGroup<real>): real { g.count as real }

  function Income(g: TicketGroup<real>): real { g.incomeExVat }

  function NatAsReal(n: nat): real { n as real }

  /** The incomes of all tickets. */
  function TotalIncome(lines: seq<Line<real>>): real {
    if lines == [] then 0.0 else TotalIncome(lines[..|lines| - 1]) + lines[|lines| - 1].income
  }

  lemma {:induction false} LinesConserve(s: Summary<real>, lines: seq<Line<real>>)
    ensures var t := PostLines(Reals(), s, lines);
      && SumBy(t.ticketGroups, CountAsReal) == SumBy(s.ticketGroups, CountAsReal) + |lines| as real
      && SumBy(t.ticketGroups, Income) == SumBy(s.ticketGroups, Income) + TotalIncome(lines)
      && t.tickets == s.tickets + |lines|
      && t.orders == s.orders && t.ordersByState == s.ordersByState
    decreases |lines|
  {
    hide AddTo, SumBy;
    if lines != [] {
      var init, last := lines[..|lines| - 1], lines[|lines| - 1];
      LinesConserve(s, init);
      var m := PostLines(Reals(), s, init).ticketGroups;
      PostGroupIsAdd(m, last.group, last.income);
      SumByAdd(m, CountAsReal, last.group, TicketGroup(1, last.income), PlusGroup);
      SumByAdd(m, Income, last.group, TicketGroup(1, last.income), PlusGroup);
    }
  }

  lemma {:induction false} TotalIncomeAppend(a: seq<Line<real>>, b: seq<Line<real>>)
    ensures TotalIncome(a + b) == TotalIncome(a) + TotalIncome(b)
    decreases |b|
  {
    if b == [] {
      assert a + b == a;
    } else {
      assert (a + b)[..|a + b| - 1] == a + b[..|b| - 1];
      TotalIncomeAppend(a, b[..|b| - 1]);
    }
  }

  /** No ticket, order or krone is lost or counted twice. */
  lemma {:induction false} Conservation(opts: Options, uuid: string, orders: seq<Order<real>>)
    ensures var s := Total(opts, uuid, orders);
      && SumBy(s.ticketGroups, CountAsReal) == s.tickets as real
      && SumBy(s.ticketGroups, Income) == TotalIncome(Lines(Reals(), opts, orders))
      && SumBy(s.ordersByState, NatAsReal) == s.orders as real
    decreases |orders|
  {
    hide AddTo, SumBy, OrderLines, PostLines, TotalIncome;
    if orders == [] {
      EmptySums(uuid);
      assert Total(opts, uuid, orders) == Empty(uuid);
    } else {
      var init, last := orders[..|orders| - 1], orders[|orders| - 1];
      var lines := OrderLines(Reals(), opts, last);
      Conservation(opts, uuid, init);
      var s := Total(opts, uuid, init);
      PostStateIsAdd(s, last.state);
      SumByAdd(s.ordersByState, NatAsReal, last.state, 1, PlusNat);
      LinesConserve(CountOrder(s, last.state), lines);
      TotalIncomeAppend(Lines(Reals(), opts, init), lines);
    }
  }

  lemma EmptySums(uuid: string)
    ensures SumBy(Empty<real>(uuid).ticketGroups, CountAsReal) == 0.0
    ensures SumBy(Empty<real>(uuid).ticketGroups, Income) == 0.0
    ensures SumBy(Empty<real>(uuid).ordersByState, NatAsReal) == 0.0
    ensures TotalIncome([]) == 0.0
  {
  }

  // ---- the free group ----

  /** A ticket whose own cleaned name is the free group's title. */
  predicate NamedAsFree(opts: Options, ticket: Ticket<real>) {
    CleanName(ticket.typeName, opts.merchPatterns) == GroupFree()
  }

  /** Free tickets earn nothing: the free group of a summary has income 0 unless a ticket bears its name. */
  lemma FreeGroupEarnsNothing(opts: Options, uuid: string, orders: seq<Order<real>>)
    requires forall i, j | 0 <= i < |orders| && 0 <= j < |orders[i].tickets| ::
               !NamedAsFree(opts, orders[i].tickets[j])
    ensures var m := SummaryOf(Reals(), opts, Orders(uuid, orders)).ticketGroups;
      GroupFree() in m ==> m[GroupFree()].incomeExVat == 0.0
  {
    FreeLinesEarnNothing(opts, orders);
    SummaryPerKey(Reals(), opts, Orders(uuid, orders));
    hide SummaryOf, NamedAsFree, Lines, StatesOk, MerchOk, IncomeIn, GroupFree;
  }

  lemma {:induction false} FreeLinesEarnNothing(opts: Options, orders: seq<Order<real>>)
    requires forall i, j | 0 <= i < |orders| && 0 <= j < |orders[i].tickets| ::
               !NamedAsFree(opts, orders[i].tickets[j])
    ensures IncomeIn(Reals(), Lines(Reals(), opts, orders), GroupFree()) == 0.0
    decreases |orders|
  {
    hide NamedAsFree, LineOf;
    if orders != [] {
      var init, last := orders[..|orders| - 1], orders[|orders| - 1];
      FreeLinesEarnNothing(opts, init);
      var lines := OrderLines(Reals(), opts, last);
      forall j | 0 <= j < |lines| ensures lines[j].group == GroupFree() ==> lines[j].income == 0.0 {
        FreeLineEarnsNothing(opts, last, last.tickets[j]);
      }
      NoIncome(Lines(Reals(), opts, init), lines, GroupFree());
    }
  }

  lemma FreeLineEarnsNothing(opts: Options, order: Order<real>, ticket: Ticket<real>)
    requires !NamedAsFree(opts, ticket)
    ensures var line := LineOf(Reals(), opts, order, ticket); line.group == GroupFree() ==> line.income == 0.0
  {
    hide CleanName, MerchOf, TshirtOf;
    assert GroupDiscounted()[0] != GroupFree()[0];
  }

  lemma {:induction false} NoIncome(before: seq<Line<real>>, lines: seq<Line<real>>, group: string)
    requires forall j | 0 <= j < |lines| :: lines[j].group == group ==> lines[j].income == 0.0
    ensures IncomeIn(Reals(), before + lines, group) == IncomeIn(Reals(), before, group)
    decreases |lines|
  {
    if lines == [] {
      assert before + lines == before;
    } else {
      var n := |lines| - 1;
      NoIncome(before, lines[..n], group);
      assert (before + lines)[..|before + lines| - 1] == before + lines[..n];
    }
  }
}
