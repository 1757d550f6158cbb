/** From the payload to the sheet: when column F of REALIZED adds up to the number of tickets. */
module SheetTotals {
  import opened Wrappers
  import opened Strings
  import opened TicketButler
  import opened Aggregate
  import opened SummaryLaws
  import opened TicketSheet

  /** The groups of a summary, in the order the script happens to iterate over them. */
  ghost predicate Enumerates(groups: seq<Group<real>>, m: map<string, TicketGroup<real>>) {
    && (forall k | 0 <= k < |groups| ::
          groups[k].title in m && m[groups[k].title] == TicketGroup(groups[k].count, groups[k].income))
    && (forall k, l | 0 <= k < l < |groups| :: groups[k].title != groups[l].title)
    && (forall t | t in m :: exists k | 0 <= k < |groups| :: groups[k].title == t)
  }

  lemma EnumeratesInit(groups: seq<Group<real>>, m: map<string, TicketGroup<real>>)
    requires Enumerates(groups, m) && groups != []
    ensures Enumerates(groups[..|groups| - 1], m - {groups[|groups| - 1].title})
  {
    var n := |groups| - 1;
    forall u | u in m - {groups[n].title} ensures exists k | 0 <= k < n :: groups[..n][k].title == u {
      var k :| 0 <= k < |groups| && groups[k].title == u;
      assert groups[..n][k].title == u;
    }
  }

  lemma EnumeratesNothing(groups: seq<Group<real>>, m: map<string, TicketGroup<real>>)
    requires Enumerates(groups, m) && groups == []
    ensures m == map[]
  {
    assert forall t :: t !in m;
  }

  lemma {:induction false} EnumeratedTotal(groups: seq<Group<real>>, m: map<string, TicketGroup<real>>)
    requires Enumerates(groups, m)
    ensures TotalCount(groups) as real == SumBy(m, CountAsReal)
    decreases |groups|
  {
    hide SumBy;
    if groups == [] {
      EnumeratesNothing(groups, m);
      SumByEmpty();
    } else {
      var n := |groups| - 1;
      var last := groups[n];
      assert last.title in m && m[last.title] == TicketGroup(last.count, last.income);
      EnumeratesInit(groups, m);
      hide Enumerates;
      SumByKey(m, CountAsReal, last.title);
      EnumeratedTotal(groups[..n], m - {last.title});
    }
  }

  lemma SumByEmpty()
    ensures SumBy(map[], CountAsReal) == 0.0
  {
  }

  /**
   The counts one update writes never exceed the tickets of the payload, and they add up to them exactly when
   every group with tickets finds a row that no later group takes over.
   */
  lemma SheetAddsUp(opts: Options, uuid: string, orders: seq<Order<real>>, groups: seq<Group<real>>,
                    titles: seq<string>)
    requires Enumerates(groups, Total(opts, uuid, orders).ticketGroups)
    ensures Written(titles, groups, |titles|) <= Total(opts, uuid, orders).tickets
    ensures Written(titles, groups, |titles|) == Total(opts, uuid, orders).tickets <==> AllShow(titles, groups)
    ensures Written(titles, groups, |titles|) + Lost(titles, groups, |groups|) == Total(opts, uuid, orders).tickets
  {
    hide Total, SumBy, AllShow, Written, TotalCount, Enumerates, TotalIncome, Lost;
    Conservation(opts, uuid, orders);
    EnumeratedTotal(groups, Total(opts, uuid, orders).ticketGroups);
    WrittenCounts(titles, groups);
    WrittenAndLost(titles, groups);
  }

  // ---- the whole column ----

  /** What a cell counts for in a sum. */
  function CellValue(c: Cell<real>): real {
    match c
    case Text(_) => 0.0
    case Count(n) => n as real
    case Money(x) => x
  }

  function ColumnSum(column: seq<Cell<real>>): real {
    if column == [] then 0.0 else ColumnSum(column[..|column| - 1]) + CellValue(column[|column| - 1])
  }

  /** What stands in the first n rows no group lands on: the update leaves it there. */
  function Standing(titles: seq<string>, groups: seq<Group<real>>, column: seq<Cell<real>>, n: nat): real
    requires n <= |column|
  {
    if n == 0 then 0.0
    else
      Standing(titles, groups, column, n - 1)
      + if LastOn(titles, groups, n - 1).Some? then 0.0 else CellValue(column[n - 1])
  }

  lemma {:induction false} ColumnSumIs(titles: seq<string>, groups: seq<Group<real>>, column: seq<Cell<real>>, n: nat)
    requires n <= |column| == |titles|
    ensures ColumnSum(CountsAfter(titles, groups, column)[..n])
         == Written(titles, groups, n) as real + Standing(titles, groups, column, n)
  {
    hide LastOn;
    var after := CountsAfter(titles, groups, column);
    if n == 0 {
      assert after[..0] == [];
    } else {
      assert after[..n][..n - 1] == after[..n - 1];
      ColumnSumIs(titles, groups, column, n - 1);
    }
  }

  /**
   Column F after an update adds up to the tickets of the payload, less those in groups that do not show, plus
   whatever stands in rows no group lands on. So it shows the right total exactly when these two balance.
   */
  lemma ColumnAddsUp(opts: Options, uuid: string, orders: seq<Order<real>>, groups: seq<Group<real>>,
                     titles: seq<string>, column: seq<Cell<real>>)
    requires Enumerates(groups, Total(opts, uuid, orders).ticketGroups) && |column| == |titles|
    ensures var sum := ColumnSum(CountsAfter(titles, groups, column));
      var tickets := Total(opts, uuid, orders).tickets;
      var lost, standing := Lost(titles, groups, |groups|), Standing(titles, groups, column, |column|);
      && sum == tickets as real - lost as real + standing
      && (sum == tickets as real <==> standing == lost as real)
      && (lost == 0 <==> AllShow(titles, groups))
  {
    hide Total, AllShow, Written, Enumerates, Lost, Standing, ColumnSum;
    SheetAddsUp(opts, uuid, orders, groups, titles);
    ColumnSumIs(titles, groups, column, |column|);
    assert CountsAfter(titles, groups, column)[..|column|] == CountsAfter(titles, groups, column);
  }

  /** readTicketbutlerOrders as far as REALIZED is concerned: the grid before and after, and the payload. */
  method ShowOnSheet(cells: array2<Cell<real>>, show: Cell<real> -> string, dataRows: nat,
                     groups: seq<Group<real>>, opts: Options, uuid: string, ghost orders: seq<Order<real>>)
    requires dataRows <= cells.Length0 && cells.Length1 > INCOME_COLUMN
    requires Enumerates(groups, Total(opts, uuid, orders).ticketGroups)
    modifies cells
    ensures Titles(cells, show, dataRows) == old(Titles(cells, show, dataRows))
    ensures var titles := old(Titles(cells, show, dataRows));
      ColumnSum(Column(cells, COUNT_COLUMN, dataRows)) == Total(opts, uuid, orders).tickets as real <==>
      Standing(titles, groups, old(Column(cells, COUNT_COLUMN, dataRows)), dataRows)
      == Lost(titles, groups, |groups|) as real
  {
    hide Total, Enumerates, Lost, Standing, ColumnSum, CountsAfter, AllShow;
    ghost var titles, column := Titles(cells, show, dataRows), Column(cells, COUNT_COLUMN, dataRows);
    UpdateRealizedSheet(cells, show, dataRows, groups);
    ColumnAddsUp(opts, uuid, orders, groups, titles, column);
  }

  // ---- a group that is gone leaves its count behind ----

  function Exempt(t: Ticket<real>): Order<real> {
    Order("PAID", true, 0.0, [t])
  }

  function Sold(name: string, price: real, total: real): Ticket<real> {
    Ticket(0, name, "", "", "", price, total, [])
  }

  function NoMerch(): Options { Options([], []) }

  function OrdinaryTitle(): string { "Ordinary" }

  lemma CleanOfTrimmed(s: string)
    requires s != "" && Trimmed(s)
    ensures |Clean(s)| == |s| && Clean(s)[0] == LowerChar(s[0])
  {
    TrimOfTrimmed(s);
    hide Trim;
  }

  lemma TitlesApart()
    ensures !IsMatchingGroup(GroupDiscounted(), OrdinaryTitle())
  {
    var d, o := GroupDiscounted(), OrdinaryTitle();
    assert |d| == 10 && d[0] == 'D' && d[9] == 'd';
    assert |o| == 8 && o[0] == 'O' && o[7] == 'y' && |OrdinaryTickets()| == 16;
    hide IsMatchingGroup, Clean, GroupDiscounted, OrdinaryTitle, OrdinaryTickets, Ordinary;
    CleanOfTrimmed(d);
    CleanOfTrimmed(o);
    MatchingIsPrefix(d, o);
  }

  lemma SelfMatches(title: string)
    ensures IsMatchingGroup(title, title)
  {
  }

  lemma OneGroup(name: string, price: real, total: real, group: string)
    requires group == Regroup(Reals(), name, total, price)
    ensures var s := Total(NoMerch(), "", [Exempt(Sold(name, price, total))]);
      s.tickets == 1 && Enumerates([Group(group, 1, total)], s.ticketGroups)
  {
    var t := Sold(name, price, total);
    assert CleanName(name, NoMerch().merchPatterns) == name;
    hide Regroup, TshirtOf, MerchOf, CleanName, SummaryOf;
    OneTicket(Reals(), NoMerch(), "", Exempt(t), t);
    EnumeratesOne(Group(group, 1, total));
  }

  lemma EnumeratesOne(g: Group<real>)
    ensures Enumerates([g], map[g.title := TicketGroup(g.count, g.income)])
  {
    assert [g][0].title == g.title;
  }

  /** Two updates: a discounted ticket, then in its place an ordinary one. Column F shows two tickets of one. */
  lemma StaleCount()
    ensures var titles := [GroupDiscounted(), OrdinaryTitle()];
      var first, second := Exempt(Sold("Any", 2.0, 1.0)), Exempt(Sold(OrdinaryTitle(), 1.0, 1.0));
      var discounted, ordinary := [Group(GroupDiscounted(), 1, 1.0)], [Group(OrdinaryTitle(), 1, 1.0)];
      && Enumerates(discounted, Total(NoMerch(), "", [first]).ticketGroups)
      && Enumerates(ordinary, Total(NoMerch(), "", [second]).ticketGroups)
      && AllShow(titles, discounted) && AllShow(titles, ordinary)
      && Total(NoMerch(), "", [second]).tickets == 1
      && ColumnSum(CountsAfter(titles, ordinary, CountsAfter(titles, discounted, [Text(""), Text("")]))) == 2.0
  {
    var d, o := GroupDiscounted(), OrdinaryTitle();
    Regroupings();
    hide GroupDiscounted, OrdinaryTitle, IsMatchingGroup, FirstMatch, Total, Enumerates, Regroup;
    OneGroup("Any", 2.0, 1.0, d);
    OneGroup(o, 1.0, 1.0, o);
    TitlesApart();
    SelfMatches(d);
    SelfMatches(o);
    TwoRows([d, o], Group(d, 1, 1.0), Group(o, 1, 1.0));
  }

  lemma Regroupings()
    ensures Regroup(Reals(), "Any", 1.0, 2.0) == GroupDiscounted()
    ensures Regroup(Reals(), OrdinaryTitle(), 1.0, 1.0) == OrdinaryTitle()
  {
  }

  lemma OnlyGroup(titles: seq<string>, g: Group<real>, i: nat)
    ensures LastOn(titles, [g], i) == if FirstMatch(titles, g.title) == i then Some(g) else None
  {
    hide FirstMatch;
    assert [g][..0] == [];
  }

  /** Two rows, each the only match of one group. */
  lemma TwoRows(titles: seq<string>, a: Group<real>, b: Group<real>)
    requires titles == [a.title, b.title] && !IsMatchingGroup(a.title, b.title)
    requires IsMatchingGroup(a.title, a.title) && IsMatchingGroup(b.title, b.title)
    ensures AllShow(titles, [a]) && AllShow(titles, [b])
    ensures ColumnSum(CountsAfter(titles, [b], CountsAfter(titles, [a], [Text(""), Text("")])))
         == a.count as real + b.count as real
  {
    hide IsMatchingGroup;
    FirstMatchIs(titles, a.title, 0);
    FirstMatchIs(titles, b.title, 1);
    hide FirstMatch;
    assert Shows(titles, [a], 0) && Shows(titles, [b], 0);
    OnlyGroup(titles, a, 0);
    OnlyGroup(titles, a, 1);
    OnlyGroup(titles, b, 0);
    OnlyGroup(titles, b, 1);
    hide LastOn;
    var twice: seq<Cell<real>> := CountsAfter(titles, [b], CountsAfter(titles, [a], [Text(""), Text("")]));
    assert twice == [Count(a.count), Count(b.count)];
    assert twice[..1] == [twice[0]] && twice[..1][..0] == [];
    assert ColumnSum(twice[..1]) == CellValue(twice[0]);
  }
}
