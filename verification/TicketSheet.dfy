/**
 The REALIZED and MERCH AND T-SHIRTS sheets: appsscript/TicketSales.gs.

 A sheet is its grid of cells, written in place; rows and columns count from 0 here. `show` is what
 toString makes of a cell. Groups and products come in whatever order the script iterates over them.
 */
module TicketSheet {
  import opened Wrappers
  import opened Strings
  import opened Sizes

  datatype Cell<+F> = Text(s: string) | Count(n: nat) | Money(amount: F)

  datatype Group<+F> = Group(title: string, count: nat, income: F)

  // ---- matching a row to a group ----

  function Clean(s: string): string {
    ToLower(Trim(s))
  }

  function Ordinary(): string { "ordinary" }
  function OrdinaryTickets(): string { "ordinary tickets" }

  predicate IsMatchingGroup(sheetTitle: string, ticketGroup: string) {
    var cleanSheet, cleanTicket := Clean(sheetTitle), Clean(ticketGroup);
    || cleanSheet == cleanTicket
    || (cleanTicket == Ordinary() && cleanSheet == OrdinaryTickets())
    || (cleanTicket == OrdinaryTickets() && cleanSheet == Ordinary())
    || cleanTicket <= cleanSheet
  }

  /**
   Of the four rules two say nothing new: a row matches when it starts with the group's name, or for the one
   short form.
   */
  lemma MatchingIsPrefix(sheetTitle: string, ticketGroup: string)
    ensures var row, group := ToLower(Trim(sheetTitle)), ToLower(Trim(ticketGroup));
      IsMatchingGroup(sheetTitle, ticketGroup) <==>
      group <= row || (group == "ordinary tickets" && row == "ordinary")
  {
    hide ToLower, Trim;
    assert OrdinaryTickets()[..8] == Ordinary();
  }

  /** The script trims the row's title before it asks, which makes no difference. */
  lemma TrimmedTitleMatches(sheetTitle: string, ticketGroup: string)
    ensures IsMatchingGroup(Trim(sheetTitle), ticketGroup) == IsMatchingGroup(sheetTitle, ticketGroup)
  {
    CleanOfTrim(sheetTitle);
    hide Clean, Trim, Ordinary, OrdinaryTickets;
  }

  lemma CleanOfTrim(s: string)
    ensures Clean(Trim(s)) == Clean(s)
  {
    TrimOfTrimmed(Trim(s));
    hide Trim, Trimmed;
  }

  /** The first row that matches; |titles| if none does. */
  function FirstMatch(titles: seq<string>, title: string): (i: nat)
    ensures i <= |titles|
  {
    if titles == [] then 0
    else if IsMatchingGroup(titles[0], title) then 0
    else FirstMatch(titles[1..], title) + 1
  }

  lemma {:induction false} FirstMatchIs(titles: seq<string>, title: string, i: nat)
    requires i <= |titles| && (i < |titles| ==> IsMatchingGroup(titles[i], title))
    requires forall k | 0 <= k < i :: !IsMatchingGroup(titles[k], title)
    ensures FirstMatch(titles, title) == i
  {
    hide IsMatchingGroup;
    if i > 0 { FirstMatchIs(titles[1..], title, i - 1); }
  }

  /** The group whose numbers a row ends up with: the last one that lands on it. */
  function LastOn<F>(titles: seq<string>, groups: seq<Group<F>>, i: nat): Option<Group<F>> {
    if groups == [] then None
    else
      var n := |groups| - 1;
      if FirstMatch(titles, groups[n].title) == i then Some(groups[n]) else LastOn(titles, groups[..n], i)
  }

  // ---- updateRealizedSheet ----

  const COUNT_COLUMN := 5
  const INCOME_COLUMN := 6

  function RealizedCell<F>(titles: seq<string>, groups: seq<Group<F>>, i: nat, j: nat, before: Cell<F>): Cell<F> {
    var g := if i < |titles| then LastOn(titles, groups, i) else None;
    if g.None? then before
    else if j == COUNT_COLUMN then Count(g.value.count)
    else if j == INCOME_COLUMN then Money(g.value.income)
    else before
  }

  ghost function Titles<F>(cells: array2<Cell<F>>, show: Cell<F> -> string, dataRows: nat): (r: seq<string>)
    requires dataRows <= cells.Length0 && cells.Length1 > 0
    reads cells
    ensures |r| == dataRows && forall i | 0 <= i < dataRows :: r[i] == Trim(show(cells[i, 0]))
  {
    seq(dataRows, i requires 0 <= i < dataRows reads cells => Trim(show(cells[i, 0])))
  }

  /** One column, over the data rows. */
  ghost function Column<F>(cells: array2<Cell<F>>, j: nat, dataRows: nat): (r: seq<Cell<F>>)
    requires dataRows <= cells.Length0 && j < cells.Length1
    reads cells
    ensures |r| == dataRows && forall i | 0 <= i < dataRows :: r[i] == cells[i, j]
  {
    seq(dataRows, i requires 0 <= i < dataRows reads cells => cells[i, j])
  }

  /** Column F after an update. */
  function CountsAfter<F>(titles: seq<string>, groups: seq<Group<F>>, column: seq<Cell<F>>): (r: seq<Cell<F>>)
    ensures |r| == |column|
  {
    seq(|column|, i requires 0 <= i < |column| => RealizedCell(titles, groups, i, COUNT_COLUMN, column[i]))
  }

  /** Columns F and G of each row show the last group that lands there; every other cell is as it was. */
  method UpdateRealizedSheet<F>(cells: array2<Cell<F>>, show: Cell<F> -> string, dataRows: nat, groups: seq<Group<F>>)
    requires dataRows <= cells.Length0 && cells.Length1 > INCOME_COLUMN
    modifies cells
    ensures forall i, j | 0 <= i < cells.Length0 && 0 <= j < cells.Length1 ::
      cells[i, j] == RealizedCell(old(Titles(cells, show, dataRows)), groups, i, j, old(cells[i, j]))
    ensures Titles(cells, show, dataRows) == old(Titles(cells, show, dataRows))
    ensures Column(cells, COUNT_COLUMN, dataRows)
         == CountsAfter(old(Titles(cells, show, dataRows)), groups, old(Column(cells, COUNT_COLUMN, dataRows)))
  {
    hide IsMatchingGroup, Trim, FirstMatch;
    ghost var titles := Titles(cells, show, dataRows);
    for g := 0 to |groups|
      invariant forall i, j | 0 <= i < cells.Length0 && 0 <= j < cells.Length1 ::
        cells[i, j] == RealizedCell(titles, groups[..g], i, j, old(cells[i, j]))
    {
      assert groups[..g + 1][..g] == groups[..g];
      var title := groups[g].title;
      var i := 0;
      while i < dataRows
        invariant 0 <= i <= dataRows
        invariant forall k | 0 <= k < i :: !IsMatchingGroup(titles[k], title)
        invariant forall i, j | 0 <= i < cells.Length0 && 0 <= j < cells.Length1 ::
          cells[i, j] == RealizedCell(titles, groups[..g], i, j, old(cells[i, j]))
      {
        var rowTitle := Trim(show(cells[i, 0]));
        assert rowTitle == titles[i];
        if IsMatchingGroup(rowTitle, title) {
          break;
        }
        i := i + 1;
      }
      FirstMatchIs(titles, title, i);
      if i < dataRows {
        cells[i, 5], cells[i, 6] := Count(groups[g].count), Money(groups[g].income);
      }
    }
    assert groups[..|groups|] == groups;
    ColumnsAfter(titles, groups);
  }

  /** An update writes nothing into column A. */
  lemma ColumnsAfter<F>(titles: seq<string>, groups: seq<Group<F>>)
    ensures forall i: nat, c: Cell<F> :: RealizedCell(titles, groups, i, 0, c) == c
  {
  }

  // ---- do the written counts add up? ----

  function CountOn<F>(titles: seq<string>, groups: seq<Group<F>>, i: nat): nat {
    var g := LastOn(titles, groups, i);
    if g.Some? then g.value.count else 0
  }

  /** What the update writes into column F of the first n rows, added up. */
  function Written<F>(titles: seq<string>, groups: seq<Group<F>>, n: nat): nat {
    if n == 0 then 0 else Written(titles, groups, n - 1) + CountOn(titles, groups, n - 1)
  }

  function TotalCount<F>(groups: seq<Group<F>>): nat {
    if groups == [] then 0 else TotalCount(groups[..|groups| - 1]) + groups[|groups| - 1].count
  }

  /** The group's numbers are on the sheet in the end: it lands on a row, and no later group lands on the same one. */
  ghost predicate Shows<F>(titles: seq<string>, groups: seq<Group<F>>, k: nat)
    requires k < |groups|
  {
    var row := FirstMatch(titles, groups[k].title);
    row < |titles| && forall l | k < l < |groups| :: FirstMatch(titles, groups[l].title) != row
  }

  ghost predicate AllShow<F>(titles: seq<string>, groups: seq<Group<F>>) {
    forall k | 0 <= k < |groups| :: groups[k].count == 0 || Shows(titles, groups, k)
  }

  lemma {:induction false} WrittenStep<F>(titles: seq<string>, groups: seq<Group<F>>, n: nat)
    requires groups != []
    ensures var init, last := groups[..|groups| - 1], groups[|groups| - 1];
      var row := FirstMatch(titles, last.title);
      Written(titles, groups, n)
      == Written(titles, init, n) + if row < n then last.count - CountOn(titles, init, row) else 0
  {
    hide FirstMatch;
    if n > 0 { WrittenStep(titles, groups, n - 1); }
  }

  lemma {:induction false} WrittenBefore<F>(titles: seq<string>, groups: seq<Group<F>>, row: nat, n: nat)
    requires row < n
    ensures Written(titles, groups, n) >= CountOn(titles, groups, row)
  {
    hide CountOn;
    if row < n - 1 { WrittenBefore(titles, groups, row, n - 1); }
  }

  /** A row shows a group with a count exactly when such a group is the last to land there. */
  lemma {:induction false} CountOnShows<F>(titles: seq<string>, groups: seq<Group<F>>, row: nat)
    requires AllShow(titles, groups) && row < |titles|
    ensures CountOn(titles, groups, row) == 0 <==>
      forall k | 0 <= k < |groups| :: groups[k].count == 0 || FirstMatch(titles, groups[k].title) != row
  {
    hide FirstMatch;
    if groups != [] {
      var n := |groups| - 1;
      if FirstMatch(titles, groups[n].title) != row {
        AllShowInit(titles, groups);
        CountOnShows(titles, groups[..n], row);
        assert forall k | 0 <= k < n :: groups[..n][k] == groups[k];
      } else if groups[n].count == 0 {
        forall k | 0 <= k < n ensures groups[k].count == 0 || FirstMatch(titles, groups[k].title) != row {
          assert groups[k].count == 0 || Shows(titles, groups, k);
        }
      }
    }
  }

  lemma AllShowInit<F>(titles: seq<string>, groups: seq<Group<F>>)
    requires groups != [] && AllShow(titles, groups)
    ensures AllShow(titles, groups[..|groups| - 1])
  {
    hide FirstMatch;
    var init := groups[..|groups| - 1];
    forall k | 0 <= k < |init| ensures init[k].count == 0 || Shows(titles, init, k) {
      assert groups[k].count == 0 || Shows(titles, groups, k);
      assert forall l | k < l < |init| :: init[l] == groups[l];
    }
  }

  lemma AllShowStep<F>(titles: seq<string>, groups: seq<Group<F>>)
    requires groups != []
    ensures var n := |groups| - 1; var row := FirstMatch(titles, groups[n].title);
      AllShow(titles, groups) <==>
        AllShow(titles, groups[..n]) && (groups[n].count == 0 || row < |titles|)
        && (row < |titles| ==> CountOn(titles, groups[..n], row) == 0)
  {
    hide FirstMatch, CountOn;
    var n := |groups| - 1;
    var init, row := groups[..n], FirstMatch(titles, groups[n].title);
    assert forall k | 0 <= k < n :: init[k] == groups[k];
    if AllShow(titles, groups) {
      AllShowInit(titles, groups);
      if row < |titles| {
        forall k | 0 <= k < n ensures init[k].count == 0 || FirstMatch(titles, init[k].title) != row {
          assert groups[k].count == 0 || Shows(titles, groups, k);
        }
        CountOnShows(titles, init, row);
      }
      assert groups[n].count == 0 || Shows(titles, groups, n);
    }
    if AllShow(titles, init) && (groups[n].count == 0 || row < |titles|)
       && (row < |titles| ==> CountOn(titles, init, row) == 0) {
      if row < |titles| { CountOnShows(titles, init, row); }
      forall k | 0 <= k < |groups| ensures groups[k].count == 0 || Shows(titles, groups, k) {
        if k < n { assert init[k].count == 0 || Shows(titles, init, k); }
      }
    }
  }

  /**
   What one update writes into column F never exceeds the groups' tickets, and is all of them exactly when no
   group with tickets is missing or overwritten. Rows no group lands on keep what they had.
   */
  lemma {:induction false} WrittenCounts<F>(titles: seq<string>, groups: seq<Group<F>>)
    ensures Written(titles, groups, |titles|) <= TotalCount(groups)
    ensures Written(titles, groups, |titles|) == TotalCount(groups) <==> AllShow(titles, groups)
    decreases |groups|
  {
    hide FirstMatch, CountOn, AllShow;
    if groups == [] {
      NothingWritten(titles, groups, |titles|);
    } else {
      var n := |groups| - 1;
      var row := FirstMatch(titles, groups[n].title);
      WrittenCounts(titles, groups[..n]);
      WrittenStep(titles, groups, |titles|);
      AllShowStep(titles, groups);
      if row < |titles| { WrittenBefore(titles, groups[..n], row, |titles|); }
    }
  }

  lemma {:induction false} NothingWritten<F>(titles: seq<string>, groups: seq<Group<F>>, n: nat)
    requires groups == []
    ensures Written(titles, groups, n) == 0 && AllShow(titles, groups)
  {
    if n > 0 { NothingWritten(titles, groups, n - 1); }
  }

  // ---- the groups that do not show ----

  /** The tickets in the first n groups that do not show: without a row, or overwritten by a later group. */
  ghost function Lost<F>(titles: seq<string>, groups: seq<Group<F>>, n: nat): nat
    requires n <= |groups|
  {
    if n == 0 then 0 else Lost(titles, groups, n - 1) + if Shows(titles, groups, n - 1) then 0 else groups[n - 1].count
  }

  /** The tickets in the first n groups that show on one given row. */
  ghost function ShownOn<F>(titles: seq<string>, groups: seq<Group<F>>, row: nat, n: nat): nat
    requires n <= |groups|
  {
    if n == 0 then 0
    else
      ShownOn(titles, groups, row, n - 1)
      + if Shows(titles, groups, n - 1) && FirstMatch(titles, groups[n - 1].title) == row
        then groups[n - 1].count else 0
  }

  lemma {:induction false} ShownOnNothing<F>(titles: seq<string>, groups: seq<Group<F>>, row: nat, n: nat)
    requires n <= |groups|
    requires forall k | 0 <= k < n :: !(Shows(titles, groups, k) && FirstMatch(titles, groups[k].title) == row)
    ensures ShownOn(titles, groups, row, n) == 0
  {
    hide FirstMatch, Shows;
    if n > 0 { ShownOnNothing(titles, groups, row, n - 1); }
  }

  /** One group more takes one row over and leaves the others alone. */
  lemma ShowsStep<F>(titles: seq<string>, groups: seq<Group<F>>, k: nat)
    requires groups != [] && k < |groups| - 1
    ensures var n := |groups| - 1;
      Shows(titles, groups, k) <==>
        Shows(titles, groups[..n], k)
        && FirstMatch(titles, groups[k].title) != FirstMatch(titles, groups[n].title)
  {
    hide FirstMatch;
    var n := |groups| - 1;
    var row := FirstMatch(titles, groups[k].title);
    assert forall l | k < l < n :: groups[..n][l] == groups[l];
    assert groups[..n][k] == groups[k];
    if Shows(titles, groups[..n], k) && row != FirstMatch(titles, groups[n].title) {
      forall l | k < l < |groups| ensures FirstMatch(titles, groups[l].title) != row {
        if l < n { assert FirstMatch(titles, groups[..n][l].title) != row; }
      }
    }
    if Shows(titles, groups, k) {
      forall l | k < l < n ensures FirstMatch(titles, groups[..n][l].title) != row {
        assert FirstMatch(titles, groups[l].title) != row;
      }
    }
  }

  lemma {:induction false} ShownOnStep<F>(titles: seq<string>, groups: seq<Group<F>>, row: nat, m: nat)
    requires groups != [] && m < |groups|
    ensures var n := |groups| - 1;
      ShownOn(titles, groups, row, m)
      == if FirstMatch(titles, groups[n].title) == row then 0 else ShownOn(titles, groups[..n], row, m)
  {
    hide FirstMatch, Shows;
    if m > 0 {
      ShownOnStep(titles, groups, row, m - 1);
      ShowsStep(titles, groups, m - 1);
      assert groups[..|groups| - 1][m - 1] == groups[m - 1];
    }
  }

  /** What a row shows is what the groups that show on it hold. */
  lemma {:induction false} ShownOnIsCount<F>(titles: seq<string>, groups: seq<Group<F>>, row: nat)
    requires row < |titles|
    ensures ShownOn(titles, groups, row, |groups|) == CountOn(titles, groups, row)
    decreases |groups|
  {
    hide FirstMatch;
    if groups != [] {
      var n := |groups| - 1;
      ShownOnStep(titles, groups, row, n);
      ShownOnIsCount(titles, groups[..n], row);
    }
  }

  lemma {:induction false} LostStep<F>(titles: seq<string>, groups: seq<Group<F>>, m: nat)
    requires groups != [] && m < |groups|
    ensures var n := |groups| - 1;
      Lost(titles, groups, m)
      == Lost(titles, groups[..n], m) + ShownOn(titles, groups[..n], FirstMatch(titles, groups[n].title), m)
  {
    hide FirstMatch, Shows;
    if m > 0 {
      LostStep(titles, groups, m - 1);
      ShowsStep(titles, groups, m - 1);
      assert groups[..|groups| - 1][m - 1] == groups[m - 1];
    }
  }

  /** Every ticket is either written into column F or in a group that does not show. */
  lemma {:induction false} WrittenAndLost<F>(titles: seq<string>, groups: seq<Group<F>>)
    ensures Written(titles, groups, |titles|) + Lost(titles, groups, |groups|) == TotalCount(groups)
    decreases |groups|
  {
    if groups == [] {
      NothingWritten(titles, groups, |titles|);
    } else {
      var n := |groups| - 1;
      var row := FirstMatch(titles, groups[n].title);
      assert Shows(titles, groups, n) <==> row < |titles|;
      hide FirstMatch, CountOn, Shows;
      WrittenAndLost(titles, groups[..n]);
      WrittenStep(titles, groups, |titles|);
      LostStep(titles, groups, n);
      if row < |titles| {
        ShownOnIsCount(titles, groups[..n], row);
      } else {
        NoRowShows(titles, groups[..n], row, n);
      }
    }
  }

  lemma NoRowShows<F>(titles: seq<string>, groups: seq<Group<F>>, row: nat, n: nat)
    requires row >= |titles| && n <= |groups|
    ensures ShownOn(titles, groups, row, n) == 0
  {
    hide FirstMatch;
    ShownOnNothing(titles, groups, row, n);
  }

  /** In particular when every group finds a row of its own. */
  lemma OwnRowsShowAll<F>(titles: seq<string>, groups: seq<Group<F>>)
    requires forall k | 0 <= k < |groups| :: FirstMatch(titles, groups[k].title) < |titles|
    requires forall k, l | 0 <= k < l < |groups| ::
      FirstMatch(titles, groups[k].title) != FirstMatch(titles, groups[l].title)
    ensures Written(titles, groups, |titles|) == TotalCount(groups)
  {
    WrittenCounts(titles, groups);
    hide FirstMatch, Written, TotalCount;
    assert forall k | 0 <= k < |groups| :: Shows(titles, groups, k);
  }

  // ---- updateMerchAndTshirtsSheet ----

  const TSHIRT_ROW := 6
  const HEADER_ROW := 15
  const MERCH_ROW := 16
  const SIZES := 6

  /** The sizes in the order of the rows. */
  function SizeAt(k: nat): Size
    requires k < SIZES
  {
    [Small, Medium, Large, XL, XXL, XXXL][k]
  }

  /** JavaScript's replace with a string: the first occurrence. */
  function ReplaceFirst(s: string, what: string): (r: string)
    ensures |r| <= |s|
  {
    var i := IndexOf(s, what);
    if i < 0 then s else s[..i] + s[i + |what|..]
  }

  function NormalizeMerchName(name: string): string {
    if name == "" then "" else ReplaceFirst(ReplaceFirst(Clean(name), "zip "), "zipper ")
  }

  /** Replacing cuts the text out where it first occurs, and changes nothing where it does not. */
  lemma ReplaceFirstIs(s: string, what: string) returns (a: string, b: string)
    ensures Contains(s, what) ==> s == a + what + b && ReplaceFirst(s, what) == a + b
    ensures !Contains(s, what) ==> ReplaceFirst(s, what) == s
    ensures forall i | OccursAt(s, what, i) :: |a| <= i
  {
    var i := IndexOf(s, what);
    a, b := "", "";
    if i >= 0 {
      FoundAt(s, what);
      CutAt(s, what, i);
      a, b := s[..i], s[i + |what|..];
    }
    forall k | OccursAt(s, what, k) ensures |a| <= k { FoundFirst(s, what, k); }
  }

  lemma StartsInside(s: string, what: string)
    requires what != "" && IndexOf(s, what) >= 0
    ensures what[0] in s
  {
    FoundAt(s, what);
    var i := IndexOf(s, what);
    assert s[i] == s[i..i + |what|][0];
  }

  lemma WithoutZ(s: string, what: string)
    requires what != "" && what[0] !in s
    ensures ReplaceFirst(s, what) == s
  {
    if IndexOf(s, what) >= 0 {
      StartsInside(s, what);
      assert false;
    }
  }

  /** A text that starts with the only z of the name is found there or nowhere. */
  lemma FoundAtZ(a: string, word: string, b: string, what: string)
    requires word != "" && what != "" && word[0] == what[0] == 'z'
    requires 'z' !in a && 'z' !in word[1..] && 'z' !in b
    ensures var s := a + word + b;
      IndexOf(s, what) == if OccursAt(s, what, |a|) then |a| else -1
  {
    var s := a + word + b;
    var i := IndexOf(s, what);
    if OccursAt(s, what, |a|) { FoundFirst(s, what, |a|); }
    if i >= 0 {
      FoundAt(s, what);
      assert s[i] == s[i..i + |what|][0] == 'z';
      OnlyZ(a, word, b);
    }
  }

  lemma OnlyZ(a: string, word: string, b: string)
    requires word != "" && 'z' !in a && 'z' !in word[1..] && 'z' !in b
    ensures forall k | 0 <= k < |a + word + b| && k != |a| :: (a + word + b)[k] != 'z'
  {
    var s := a + word + b;
    forall k | 0 <= k < |s| && k != |a| ensures s[k] != 'z' {
      if k < |a| {
        assert s[k] == a[k] && a[k] in a;
      } else if k < |a| + |word| {
        assert s[k] == word[1..][k - |a| - 1] && word[1..][k - |a| - 1] in word[1..];
      } else {
        assert s[k] == b[k - |a| - |word|] && b[k - |a| - |word|] in b;
      }
    }
  }

  lemma CutOut(a: string, word: string, b: string)
    ensures OccursAt(a + word + b, word, |a|)
    ensures (a + word + b)[..|a|] + (a + word + b)[|a| + |word|..] == a + b
  {
  }

  lemma LowerZip(a: string, b: string)
    requires ToLower(a + b) == a + b
    ensures ToLower(a + "zip " + b) == a + "zip " + b && ToLower(a + "zipper " + b) == a + "zipper " + b
  {
    forall i | 0 <= i < |a| ensures LowerChar(a[i]) == a[i] { assert (a + b)[i] == a[i]; }
    forall i | 0 <= i < |b| ensures LowerChar(b[i]) == b[i] { assert (a + b)[|a| + i] == b[i]; }
  }

  /** A product's name is compared without the words that only say that it has a zip. */
  lemma ZipIsDropped(a: string, b: string)
    requires 'z' !in a && 'z' !in b && ToLower(a + b) == a + b
    ensures Trimmed(a + "zip " + b) ==> NormalizeMerchName(a + "zip " + b) == a + b
    ensures Trimmed(a + "zipper " + b) ==> NormalizeMerchName(a + "zipper " + b) == a + b
    ensures Trimmed(a + b) ==> NormalizeMerchName(a + b) == a + b
  {
    LowerZip(a, b);
    CutZipOut(a, b);
    CutZipperOut(a, b);
    NothingToCut(a + b);
    hide *;
    CleanText(a + "zip " + b);
    CleanText(a + "zipper " + b);
    CleanText(a + b);
  }

  lemma CleanText(s: string)
    requires ToLower(s) == s
    ensures Trimmed(s) && s != "" ==> NormalizeMerchName(s) == ReplaceFirst(ReplaceFirst(s, "zip "), "zipper ")
    ensures s == "" ==> NormalizeMerchName(s) == s
  {
    if Trimmed(s) { TrimOfTrimmed(s); }
    hide ToLower, ReplaceFirst, Trim, Trimmed;
  }

  lemma NothingToCut(s: string)
    requires 'z' !in s
    ensures ReplaceFirst(s, "zip ") == ReplaceFirst(s, "zipper ") == s
  {
    hide ReplaceFirst;
    WithoutZ(s, "zip ");
    WithoutZ(s, "zipper ");
  }

  lemma CutZipOut(a: string, b: string)
    requires 'z' !in a && 'z' !in b
    ensures ReplaceFirst(ReplaceFirst(a + "zip " + b, "zip "), "zipper ") == a + b
  {
    CutOut(a, "zip ", b);
    FoundAtZ(a, "zip ", b, "zip ");
    NothingToCut(a + b);
    hide IndexOf, OccursAt;
  }

  lemma CutZipperOut(a: string, b: string)
    requires 'z' !in a && 'z' !in b
    ensures ReplaceFirst(ReplaceFirst(a + "zipper " + b, "zip "), "zipper ") == a + b
  {
    CutOut(a, "zipper ", b);
    NoZipInZipper(a, b);
    FoundAtZ(a, "zipper ", b, "zip ");
    FoundAtZ(a, "zipper ", b, "zipper ");
    hide IndexOf, OccursAt;
  }

  lemma NoZipInZipper(a: string, b: string)
    ensures !OccursAt(a + "zipper " + b, "zip ", |a|)
  {
    assert (a + "zipper " + b)[|a|..|a| + 4] == "zipp";
    assert "zipp"[3] != "zip "[3];
  }

  datatype Product = Product(name: string, counts: SizeCounts)

  /** The first product with this column's name. */
  function ProductFor(products: seq<Product>, column: string): Option<Product> {
    if products == [] then None
    else if NormalizeMerchName(products[0].name) == NormalizeMerchName(column) then Some(products[0])
    else ProductFor(products[1..], column)
  }

  predicate Falsy<F>(c: Cell<F>) {
    c == Text("") || c == Count(0)
  }

  /** The numbers of a product; nothing sold of a column nobody knows, or of a product without a name. */
  function CountsFor(products: seq<Product>, column: string): SizeCounts {
    match ProductFor(products, column)
    case None => NONE
    case Some(p) => if p.name == "" then NONE else p.counts
  }

  predicate MerchColumn<F>(cells: array2<Cell<F>>, lastCol: nat, j: nat)
    requires lastCol <= cells.Length1 && HEADER_ROW < cells.Length0
    reads cells
  {
    1 <= j < lastCol && !Falsy(cells[HEADER_ROW, j])
  }

  lemma {:induction false} ProductForIs(products: seq<Product>, column: string, k: nat)
    requires k <= |products|
    requires forall l | 0 <= l < k :: NormalizeMerchName(products[l].name) != NormalizeMerchName(column)
    ensures k == |products| ==> ProductFor(products, column) == None
    ensures k < |products| && NormalizeMerchName(products[k].name) == NormalizeMerchName(column) ==>
              ProductFor(products, column) == Some(products[k])
  {
    hide NormalizeMerchName;
    if k > 0 { ProductForIs(products[1..], column, k - 1); }
  }

  method FindProduct(products: seq<Product>, column: string) returns (r: Option<Product>)
    ensures r == ProductFor(products, column)
  {
    hide NormalizeMerchName, ProductFor;
    var normalized := NormalizeMerchName(column);
    for k := 0 to |products|
      invariant forall l | 0 <= l < k :: NormalizeMerchName(products[l].name) != normalized
    {
      if NormalizeMerchName(products[k].name) == normalized {
        ProductForIs(products, column, k);
        return Some(products[k]);
      }
    }
    ProductForIs(products, column, |products|);
    return None;
  }

  /** Six numbers down one column. */
  method WriteSizes<F>(cells: array2<Cell<F>>, row: nat, column: nat, counts: SizeCounts)
    requires row + SIZES <= cells.Length0 && column < cells.Length1
    modifies cells
    ensures forall i, j | 0 <= i < cells.Length0 && 0 <= j < cells.Length1 ::
      cells[i, j] == if j == column && row <= i < row + SIZES then Count(counts.Get(SizeAt(i - row)))
                     else old(cells[i, j])
  {
    var sizeOrder := [counts.small, counts.medium, counts.large, counts.xl, counts.xxl, counts.xxxl];
    for k := 0 to |sizeOrder|
      invariant forall i, j | 0 <= i < cells.Length0 && 0 <= j < cells.Length1 ::
        cells[i, j] == if j == column && row <= i < row + k then Count(counts.Get(SizeAt(i - row)))
                       else old(cells[i, j])
    {
      assert sizeOrder[k] == counts.Get(SizeAt(k));
      cells[row + k, column] := Count(sizeOrder[k]);
    }
  }

  function MerchCell<F>(tshirts: SizeCounts, products: seq<Product>, i: nat, j: nat, column: Option<string>,
      before: Cell<F>): Cell<F> {
    if j == 1 && TSHIRT_ROW <= i < TSHIRT_ROW + SIZES then Count(tshirts.Get(SizeAt(i - TSHIRT_ROW)))
    else if column.Some? && MERCH_ROW <= i < MERCH_ROW + SIZES then
      Count(CountsFor(products, column.value).Get(SizeAt(i - MERCH_ROW)))
    else before
  }

  /**
   Column B of the T-shirt block shows the T-shirt tally; under each merchandise header stand the
   numbers of the first product with that name, or zeros; every other cell is as it was.
   */
  method UpdateMerchAndTshirtsSheet<F>(cells: array2<Cell<F>>, show: Cell<F> -> string, lastCol: nat,
                                       tshirts: SizeCounts, products: seq<Product>)
    requires cells.Length0 >= MERCH_ROW + SIZES && cells.Length1 >= 2 && lastCol <= cells.Length1
    modifies cells
    ensures forall i, j | 0 <= i < cells.Length0 && 0 <= j < cells.Length1 ::
      cells[i, j] == MerchCell(tshirts, products, i, j,
                               if old(MerchColumn(cells, lastCol, j)) then Some(old(show(cells[HEADER_ROW, j])))
                               else None,
                               old(cells[i, j]))
  {
    hide NormalizeMerchName, CountsFor;
    WriteSizes(cells, 6, 1, tshirts);
    if lastCol < 2 { return; }
    label Tshirts:
    for j := 1 to lastCol
      invariant forall i, c | 0 <= i < cells.Length0 && 0 <= c < cells.Length1 ::
        cells[i, c] == if 1 <= c < j && !Falsy(old(cells[HEADER_ROW, c])) && MERCH_ROW <= i < MERCH_ROW + SIZES
                       then Count(CountsFor(products, show(old(cells[HEADER_ROW, c]))).Get(SizeAt(i - MERCH_ROW)))
                       else old@Tshirts(cells[i, c])
    {
      var header := cells[15, j];
      if header != Text("") && header != Count(0) {
        var matched := FindProduct(products, show(header));
        var counts := if matched.Some? && matched.value.name != "" then matched.value.counts else NONE;
        assert counts == CountsFor(products, show(header)) by { CountsAre(products, show(header)); }
        WriteSizes(cells, 16, j, counts);
      }
    }
  }

  lemma CountsAre(products: seq<Product>, column: string)
    ensures CountsFor(products, column) ==
      var p := ProductFor(products, column); if p.Some? && p.value.name != "" then p.value.counts else NONE
  {
  }
}
