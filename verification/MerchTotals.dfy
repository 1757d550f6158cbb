/**
 From the payload to the MERCH AND T-SHIRTS sheet: when a row of the merchandise block adds up to the
 merchandise sold in that size.

 A product shows under every header with its name, unless an earlier product has the same normalised
 name. So a row can lose a product, and it can show one twice.
 */
module MerchTotals {
  import opened Wrappers
  import opened Strings
  import opened Sizes
  import opened TicketButler
  import opened Aggregate
  import opened SummaryLaws
  import opened TicketSheet
  import opened SheetTotals

  // ---- merchandise is conserved ----

  /** Garments of one size on the lines. */
  function Sold(lines: seq<Line<real>>, size: Size): nat {
    if lines == [] then 0
    else
      var last := lines[|lines| - 1];
      Sold(lines[..|lines| - 1], size) + if last.merch.Some? then last.merch.value.1.Get(size) else 0
  }

  function InSize(size: Size): SizeCounts -> real {
    (c: SizeCounts) => c.Get(size) as real
  }

  lemma {:induction false} SoldAppend(a: seq<Line<real>>, b: seq<Line<real>>, size: Size)
    ensures Sold(a + b, size) == Sold(a, size) + Sold(b, size)
    decreases |b|
  {
    if b == [] {
      assert a + b == a;
    } else {
      assert (a + b)[..|a + b| - 1] == a + b[..|b| - 1];
      SoldAppend(a, b[..|b| - 1], size);
    }
  }

  lemma {:induction false} LinesConserveMerch(s: Summary<real>, lines: seq<Line<real>>, size: Size)
    ensures SumBy(PostLines(Reals(), s, lines).merch, InSize(size))
         == SumBy(s.merch, InSize(size)) + Sold(lines, size) as real
    decreases |lines|
  {
    hide AddTo, SumBy;
    if lines != [] {
      var init, last := lines[..|lines| - 1], lines[|lines| - 1];
      LinesConserveMerch(s, init, size);
      if last.merch.Some? {
        var (product, counts) := last.merch.value;
        var m := PostLines(Reals(), s, init).merch;
        PostMerchIsAdd(m, product, counts);
        SumByAdd(m, InSize(size), product, counts, PlusSizes);
      }
    }
  }

  /** No garment is lost or counted twice on the way into the summary. */
  lemma {:induction false} MerchConserved(opts: Options, uuid: string, orders: seq<Order<real>>, size: Size)
    ensures SumBy(Total(opts, uuid, orders).merch, InSize(size)) == Sold(Lines(Reals(), opts, orders), size) as real
    decreases |orders|
  {
    hide SumBy, OrderLines, PostLines, Sold;
    if orders == [] {
      NothingSold(uuid, size);
      assert Total(opts, uuid, orders) == Empty(uuid);
    } else {
      var init, last := orders[..|orders| - 1], orders[|orders| - 1];
      var lines := OrderLines(Reals(), opts, last);
      MerchConserved(opts, uuid, init, size);
      LinesConserveMerch(CountOrder(Total(opts, uuid, init), last.state), lines, size);
      SoldAppend(Lines(Reals(), opts, init), lines, size);
    }
  }

  lemma NothingSold(uuid: string, size: Size)
    ensures SumBy(Empty<real>(uuid).merch, InSize(size)) == 0.0 && Sold([], size) == 0
  {
  }

  // ---- the products of a summary ----

  /** The products of a summary, in the order the script happens to iterate over them. */
  ghost predicate ListsMerch(products: seq<Product>, m: map<string, SizeCounts>) {
    && (forall k | 0 <= k < |products| :: products[k].name in m && m[products[k].name] == products[k].counts)
    && (forall k, l | 0 <= k < l < |products| :: products[k].name != products[l].name)
    && (forall t | t in m :: exists k | 0 <= k < |products| :: products[k].name == t)
  }

  /** The first n products' garments of one size. */
  function Stock(products: seq<Product>, size: Size, n: nat): nat
    requires n <= |products|
  {
    if n == 0 then 0 else Stock(products, size, n - 1) + products[n - 1].counts.Get(size)
  }

  lemma {:induction false} StockPrefix(products: seq<Product>, size: Size, n: nat)
    requires n < |products|
    ensures Stock(products[..|products| - 1], size, n) == Stock(products, size, n)
  {
    if n > 0 { StockPrefix(products, size, n - 1); }
  }

  lemma ListsInit(products: seq<Product>, m: map<string, SizeCounts>)
    requires ListsMerch(products, m) && products != []
    ensures ListsMerch(products[..|products| - 1], m - {products[|products| - 1].name})
  {
    var n := |products| - 1;
    forall t | t in m - {products[n].name} ensures exists k | 0 <= k < n :: products[..n][k].name == t {
      var k :| 0 <= k < |products| && products[k].name == t;
      assert products[..n][k].name == t;
    }
  }

  lemma ListsNothing(products: seq<Product>, m: map<string, SizeCounts>, size: Size)
    requires ListsMerch(products, m) && products == []
    ensures SumBy(m, InSize(size)) == 0.0
  {
    assert forall t :: t !in m;
    assert m == map[];
  }

  lemma {:induction false} StockIs(products: seq<Product>, m: map<string, SizeCounts>, size: Size)
    requires ListsMerch(products, m)
    ensures Stock(products, size, |products|) as real == SumBy(m, InSize(size))
    decreases |products|
  {
    hide SumBy;
    if products == [] {
      ListsNothing(products, m, size);
    } else {
      var n := |products| - 1;
      assert products[n].name in m && m[products[n].name] == products[n].counts;
      ListsInit(products, m);
      hide ListsMerch, SizeCounts.Get;
      SumByKey(m, InSize(size), products[n].name);
      StockIs(products[..n], m - {products[n].name}, size);
      StockPrefix(products, size, n);
    }
  }

  function Times(n: nat, x: nat): nat { n * x }

  lemma TimesStep(n: nat, x: nat)
    ensures Times(0, x) == 0 && Times(n + 1, x) == Times(n, x) + x
    ensures Times(n, x) == 0 <==> n == 0 || x == 0
  {
  }

  // ---- which columns show a product ----

  /** Column headers from B on; None where the header is empty and the column left alone. */
  type Headers = seq<Option<string>>

  predicate Alike(product: string, header: string) {
    NormalizeMerchName(product) == NormalizeMerchName(header)
  }

  /** The column shows this product: it has a name, the header's, and no earlier product does. */
  predicate ShowsProduct(products: seq<Product>, header: Option<string>, k: nat)
    requires k < |products|
  {
    && header.Some? && products[k].name != "" && Alike(products[k].name, header.value)
    && forall l | 0 <= l < k :: !Alike(products[l].name, header.value)
  }

  /** How many of the first n columns show the product. */
  function Columns(products: seq<Product>, headers: Headers, k: nat, n: nat): nat
    requires k < |products| && n <= |headers|
  {
    if n == 0 then 0
    else Columns(products, headers, k, n - 1) + if ShowsProduct(products, headers[n - 1], k) then 1 else 0
  }

  /** What the update writes into one row of the first n columns, added up. */
  function WrittenIn(products: seq<Product>, headers: Headers, size: Size, n: nat): nat
    requires n <= |headers|
  {
    if n == 0 then 0
    else
      WrittenIn(products, headers, size, n - 1)
      + if headers[n - 1].Some? then CountsFor(products, headers[n - 1].value).Get(size) else 0
  }

  /** Of the first m products, the garments no column shows. */
  function Missing(products: seq<Product>, headers: Headers, size: Size, m: nat): nat
    requires m <= |products|
  {
    if m == 0 then 0
    else
      Missing(products, headers, size, m - 1)
      + if Columns(products, headers, m - 1, |headers|) == 0 then products[m - 1].counts.Get(size) else 0
  }

  /** Of the first m products, the garments shown again in further columns. */
  function Repeated(products: seq<Product>, headers: Headers, size: Size, m: nat): nat
    requires m <= |products|
  {
    if m == 0 then 0
    else
      var columns := Columns(products, headers, m - 1, |headers|);
      Repeated(products, headers, size, m - 1)
      + if columns == 0 then 0 else Times(columns - 1, products[m - 1].counts.Get(size))
  }

  /** The garments of the first m products, as often as the first n columns show them. */
  function Shown(products: seq<Product>, headers: Headers, size: Size, n: nat, m: nat): nat
    requires n <= |headers| && m <= |products|
  {
    if m == 0 then 0
    else
      Shown(products, headers, size, n, m - 1)
      + Times(Columns(products, headers, m - 1, n), products[m - 1].counts.Get(size))
  }

  /** The garments of the first m products in one column. */
  function ShownUnder(products: seq<Product>, header: Option<string>, size: Size, m: nat): nat
    requires m <= |products|
  {
    if m == 0 then 0
    else
      ShownUnder(products, header, size, m - 1)
      + if ShowsProduct(products, header, m - 1) then products[m - 1].counts.Get(size) else 0
  }

  lemma {:induction false} UnderNobody(products: seq<Product>, header: Option<string>, size: Size, m: nat)
    requires m <= |products|
    requires header.Some? ==> forall l | 0 <= l < m :: !Alike(products[l].name, header.value)
    ensures ShownUnder(products, header, size, m) == 0
  {
    hide Alike;
    if m > 0 { UnderNobody(products, header, size, m - 1); }
  }

  lemma {:induction false} UnderFirst(products: seq<Product>, header: string, size: Size, k: nat, m: nat)
    requires k < m <= |products| && Alike(products[k].name, header)
    requires forall l | 0 <= l < k :: !Alike(products[l].name, header)
    ensures ShownUnder(products, Some(header), size, m)
         == if products[k].name == "" then 0 else products[k].counts.Get(size)
  {
    hide Alike;
    if m == k + 1 {
      UnderNobody(products, Some(header), size, k);
    } else {
      UnderFirst(products, header, size, k, m - 1);
    }
  }

  /** The first product with the header's name; |products| if there is none. */
  lemma {:induction false} FirstAlike(products: seq<Product>, header: string, from: nat) returns (k: nat)
    requires from <= |products| && forall l | 0 <= l < from :: !Alike(products[l].name, header)
    ensures k <= |products| && forall l | 0 <= l < k :: !Alike(products[l].name, header)
    ensures k < |products| ==> Alike(products[k].name, header)
    decreases |products| - from
  {
    hide Alike;
    if from == |products| || Alike(products[from].name, header) {
      return from;
    }
    k := FirstAlike(products, header, from + 1);
  }

  /** A column's numbers are those of the product it shows. */
  lemma ColumnShows(products: seq<Product>, header: string, size: Size)
    ensures CountsFor(products, header).Get(size) == ShownUnder(products, Some(header), size, |products|)
  {
    var k := FirstAlike(products, header, 0);
    ProductForIs(products, header, k);
    hide NormalizeMerchName, ProductFor;
    if k == |products| {
      UnderNobody(products, Some(header), size, k);
    } else {
      UnderFirst(products, header, size, k, |products|);
    }
  }

  lemma {:induction false} ShownStep(products: seq<Product>, headers: Headers, size: Size, n: nat, m: nat)
    requires n < |headers| && m <= |products|
    ensures Shown(products, headers, size, n + 1, m)
         == Shown(products, headers, size, n, m) + ShownUnder(products, headers[n], size, m)
  {
    hide ShowsProduct, Times, SizeCounts.Get;
    if m > 0 {
      ShownStep(products, headers, size, n, m - 1);
      TimesStep(Columns(products, headers, m - 1, n), products[m - 1].counts.Get(size));
    }
  }

  lemma {:induction false} NoColumns(products: seq<Product>, headers: Headers, size: Size, m: nat)
    requires m <= |products|
    ensures Shown(products, headers, size, 0, m) == 0
  {
    hide Times, SizeCounts.Get;
    if m > 0 {
      NoColumns(products, headers, size, m - 1);
      TimesStep(0, products[m - 1].counts.Get(size));
    }
  }

  lemma {:induction false} WrittenIsShown(products: seq<Product>, headers: Headers, size: Size, n: nat)
    requires n <= |headers|
    ensures WrittenIn(products, headers, size, n) == Shown(products, headers, size, n, |products|)
  {
    hide CountsFor, Shown, ShownUnder;
    if n == 0 {
      NoColumns(products, headers, size, |products|);
    } else {
      WrittenIsShown(products, headers, size, n - 1);
      ShownStep(products, headers, size, n - 1, |products|);
      if headers[n - 1].Some? {
        ColumnShows(products, headers[n - 1].value, size);
      } else {
        UnderNobody(products, None, size, |products|);
      }
    }
  }

  lemma {:induction false} ShownBalance(products: seq<Product>, headers: Headers, size: Size, m: nat)
    requires m <= |products|
    ensures Shown(products, headers, size, |headers|, m) + Missing(products, headers, size, m)
         == Stock(products, size, m) + Repeated(products, headers, size, m)
  {
    hide Columns, Times, SizeCounts.Get;
    if m > 0 {
      ShownBalance(products, headers, size, m - 1);
      var columns := Columns(products, headers, m - 1, |headers|);
      TimesStep(if columns == 0 then 0 else columns - 1, products[m - 1].counts.Get(size));
    }
  }

  /** What one update writes into a row, against the garments of the products. */
  lemma RowBalance(products: seq<Product>, headers: Headers, size: Size)
    ensures WrittenIn(products, headers, size, |headers|) + Missing(products, headers, size, |products|)
         == Stock(products, size, |products|) + Repeated(products, headers, size, |products|)
  {
    hide WrittenIn, Missing, Repeated, Stock, Shown;
    WrittenIsShown(products, headers, size, |headers|);
    ShownBalance(products, headers, size, |products|);
  }

  // ---- the whole row ----

  lemma {:induction false} HasColumn(products: seq<Product>, headers: Headers, k: nat, n: nat)
    requires k < |products| && n <= |headers|
    ensures Columns(products, headers, k, n) > 0 <==>
      exists c | 0 <= c < n :: ShowsProduct(products, headers[c], k)
  {
    hide ShowsProduct;
    if n > 0 { HasColumn(products, headers, k, n - 1); }
  }

  lemma {:induction false} MissingNothing(products: seq<Product>, headers: Headers, size: Size, m: nat)
    requires m <= |products|
    ensures Missing(products, headers, size, m) == 0 <==>
      forall k | 0 <= k < m :: products[k].counts.Get(size) == 0 || Columns(products, headers, k, |headers|) > 0
  {
    hide Columns;
    if m > 0 { MissingNothing(products, headers, size, m - 1); }
  }

  lemma {:induction false} RepeatedNothing(products: seq<Product>, headers: Headers, size: Size, m: nat)
    requires m <= |products|
    ensures Repeated(products, headers, size, m) == 0 <==>
      forall k | 0 <= k < m :: products[k].counts.Get(size) == 0 || Columns(products, headers, k, |headers|) <= 1
  {
    hide Columns, Times, SizeCounts.Get;
    if m > 0 {
      RepeatedNothing(products, headers, size, m - 1);
      var columns := Columns(products, headers, m - 1, |headers|);
      TimesStep(if columns == 0 then 0 else columns - 1, products[m - 1].counts.Get(size));
    }
  }

  /** What stands under the first n empty headers: the update leaves it there. */
  function StandingIn(headers: Headers, row: seq<Cell<real>>, n: nat): real
    requires n <= |row| == |headers|
  {
    if n == 0 then 0.0
    else StandingIn(headers, row, n - 1) + if headers[n - 1].Some? then 0.0 else CellValue(row[n - 1])
  }

  /** A row of the merchandise block after an update. */
  function RowAfter(products: seq<Product>, headers: Headers, size: Size, row: seq<Cell<real>>): (r: seq<Cell<real>>)
    requires |row| == |headers|
    ensures |r| == |row|
  {
    seq(|row|, c requires 0 <= c < |row| =>
      if headers[c].Some? then Count(CountsFor(products, headers[c].value).Get(size)) else row[c])
  }

  lemma {:induction false} RowSumIs(products: seq<Product>, headers: Headers, size: Size, row: seq<Cell<real>>, n: nat)
    requires n <= |row| == |headers|
    ensures ColumnSum(RowAfter(products, headers, size, row)[..n])
         == WrittenIn(products, headers, size, n) as real + StandingIn(headers, row, n)
  {
    hide CountsFor;
    var after := RowAfter(products, headers, size, row);
    if n == 0 {
      assert after[..0] == [];
    } else {
      assert after[..n][..n - 1] == after[..n - 1];
      RowSumIs(products, headers, size, row, n - 1);
    }
  }

  /** Every product sold in this size shows under some header. */
  ghost predicate AllShown(products: seq<Product>, headers: Headers, size: Size) {
    forall k | 0 <= k < |products| :: products[k].counts.Get(size) == 0 ||
      exists c | 0 <= c < |headers| :: ShowsProduct(products, headers[c], k)
  }

  /**
   A row of the merchandise block after an update adds up to the garments of that size on the tickets, less
   those of products no column shows, plus those of products that several columns show, plus what stands
   under empty headers. So it shows the right total exactly when these balance.
   */
  lemma RowAddsUp(opts: Options, uuid: string, orders: seq<Order<real>>, products: seq<Product>, headers: Headers,
                  size: Size, row: seq<Cell<real>>)
    requires ListsMerch(products, Total(opts, uuid, orders).merch) && |row| == |headers|
    ensures var sum := ColumnSum(RowAfter(products, headers, size, row));
      var sold := Sold(Lines(Reals(), opts, orders), size);
      var missing := Missing(products, headers, size, |products|);
      var repeated := Repeated(products, headers, size, |products|);
      var standing := StandingIn(headers, row, |row|);
      && sum == sold as real - missing as real + repeated as real + standing
      && (sum == sold as real <==> repeated as real + standing == missing as real)
      && (missing == 0 <==> AllShown(products, headers, size))
  {
    hide Total, WrittenIn, Missing, Repeated, Stock, ListsMerch, StandingIn, ColumnSum, SumBy, Sold, RowAfter,
         Columns, ShowsProduct, InSize;
    MerchConserved(opts, uuid, orders, size);
    StockIs(products, Total(opts, uuid, orders).merch, size);
    RowBalance(products, headers, size);
    RowSumIs(products, headers, size, row, |row|);
    MissingNothing(products, headers, size, |products|);
    var after := RowAfter(products, headers, size, row);
    assert after[..|row|] == after;
    forall k | 0 <= k < |products|
      ensures Columns(products, headers, k, |headers|) > 0 <==>
        exists c | 0 <= c < |headers| :: ShowsProduct(products, headers[c], k)
    {
      HasColumn(products, headers, k, |headers|);
    }
  }

  // ---- the grid ----

  function Width(lastCol: nat): nat {
    if lastCol < 2 then 0 else lastCol - 1
  }

  /** One row of the grid, from column B on. */
  ghost function RowOf(cells: array2<Cell<real>>, i: nat, lastCol: nat): (r: seq<Cell<real>>)
    requires i < cells.Length0 && lastCol <= cells.Length1
    reads cells
    ensures |r| == Width(lastCol) && forall c | 0 <= c < |r| :: r[c] == cells[i, c + 1]
  {
    seq(Width(lastCol), c requires 0 <= c < Width(lastCol) reads cells => cells[i, c + 1])
  }

  ghost function HeadersOf(cells: array2<Cell<real>>, show: Cell<real> -> string, lastCol: nat): (r: Headers)
    requires HEADER_ROW < cells.Length0 && lastCol <= cells.Length1
    reads cells
    ensures |r| == Width(lastCol)
    ensures forall c | 0 <= c < |r| ::
      r[c] == if MerchColumn(cells, lastCol, c + 1) then Some(show(cells[HEADER_ROW, c + 1])) else None
  {
    seq(Width(lastCol), c requires 0 <= c < Width(lastCol) reads cells =>
      if MerchColumn(cells, lastCol, c + 1) then Some(show(cells[HEADER_ROW, c + 1])) else None)
  }

  /** readTicketbutlerOrders as far as the merchandise block is concerned: the grid and the payload. */
  method ShowMerchOnSheet(cells: array2<Cell<real>>, show: Cell<real> -> string, lastCol: nat, tshirts: SizeCounts,
                          products: seq<Product>, opts: Options, uuid: string, ghost orders: seq<Order<real>>)
    requires cells.Length0 >= MERCH_ROW + SIZES && cells.Length1 >= 2 && lastCol <= cells.Length1
    requires ListsMerch(products, Total(opts, uuid, orders).merch)
    modifies cells
    ensures HeadersOf(cells, show, lastCol) == old(HeadersOf(cells, show, lastCol))
    ensures forall k | 0 <= k < SIZES ::
      var headers := old(HeadersOf(cells, show, lastCol));
      var before := old(RowOf(cells, MERCH_ROW + k, lastCol));
      var after, size := RowOf(cells, MERCH_ROW + k, lastCol), SizeAt(k);
      && after == RowAfter(products, headers, size, before)
      && (ColumnSum(after) == Sold(Lines(Reals(), opts, orders), size) as real <==>
          Repeated(products, headers, size, |products|) as real + StandingIn(headers, before, |before|)
          == Missing(products, headers, size, |products|) as real)
  {
    hide Total, ListsMerch, Missing, Repeated, StandingIn, ColumnSum, CountsFor, AllShown, Sold;
    ghost var headers := HeadersOf(cells, show, lastCol);
    UpdateMerchAndTshirtsSheet(cells, show, lastCol, tshirts, products);
    forall k | 0 <= k < SIZES
      ensures var before := old(RowOf(cells, MERCH_ROW + k, lastCol));
        var after, size := RowOf(cells, MERCH_ROW + k, lastCol), SizeAt(k);
        && after == RowAfter(products, headers, size, before)
        && (ColumnSum(after) == Sold(Lines(Reals(), opts, orders), size) as real <==>
            Repeated(products, headers, size, |products|) as real + StandingIn(headers, before, |before|)
            == Missing(products, headers, size, |products|) as real)
    {
      ghost var before := old(RowOf(cells, MERCH_ROW + k, lastCol));
      assert RowOf(cells, MERCH_ROW + k, lastCol) == RowAfter(products, headers, SizeAt(k), before);
      RowAddsUp(opts, uuid, orders, products, headers, SizeAt(k), before);
    }
  }

  // ---- two products with one name ----

  function ZipHoodie(): string { "Zip Hoodie" }

  function Hoodie(): string { "Hoodie" }

  lemma LowerHoodies()
    ensures ToLower(ZipHoodie()) == "zip hoodie" && ToLower(Hoodie()) == "hoodie"
    ensures Trimmed(ZipHoodie()) && Trimmed(Hoodie())
  {
  }

  lemma CutZip()
    ensures ReplaceFirst("zip hoodie", "zip ") == "hoodie"
  {
    var s := "zip hoodie";
    assert "zip " <= s && IndexOf(s, "zip ") == 0;
    assert s[4..] == "hoodie";
  }

  lemma HoodiesAlike()
    ensures NormalizeMerchName(ZipHoodie()) == NormalizeMerchName(Hoodie()) == "hoodie"
    ensures ZipHoodie() != "" && Hoodie() != ""
  {
    hide Trim, Trimmed, ToLower, ReplaceFirst;
    LowerHoodies();
    CutZip();
    WithoutZ("hoodie", "zip ");
    WithoutZ("hoodie", "zipper ");
    TrimOfTrimmed(ZipHoodie());
    TrimOfTrimmed(Hoodie());
  }

  /**
   A jacket with a zip and one without share a normalised name: each of their two columns shows the first
   one's numbers, and the second one's are nowhere.
   */
  lemma HoodieHidden(a: SizeCounts, b: SizeCounts, size: Size)
    ensures var products := [Product(ZipHoodie(), a), Product(Hoodie(), b)];
      var headers := [Some(ZipHoodie()), Some(Hoodie())];
      && Missing(products, headers, size, 2) == b.Get(size)
      && Repeated(products, headers, size, 2) == a.Get(size)
      && WrittenIn(products, headers, size, 2) == 2 * a.Get(size)
      && Stock(products, size, 2) == a.Get(size) + b.Get(size)
  {
    HoodiesAlike();
    hide NormalizeMerchName, SizeCounts.Get, CountsFor, ZipHoodie, Hoodie;
    var products := [Product(ZipHoodie(), a), Product(Hoodie(), b)];
    var headers: Headers := [Some(ZipHoodie()), Some(Hoodie())];
    forall c | 0 <= c < 2
      ensures ShowsProduct(products, headers[c], 0) && !ShowsProduct(products, headers[c], 1)
    {
      assert Alike(products[0].name, headers[c].value);
    }
    hide ShowsProduct, Alike, Times, Columns;
    TwoColumns(products, headers, 0);
    TwoColumns(products, headers, 1);
    TimesStep(0, a.Get(size));
    TimesStep(0, b.Get(size));
    RowBalance(products, headers, size);
    assert Missing(products, headers, size, 1) == 0 && Repeated(products, headers, size, 1) == a.Get(size);
    assert Stock(products, size, 1) == a.Get(size);
  }

  lemma TwoColumns(products: seq<Product>, headers: Headers, k: nat)
    requires |headers| == 2 && k < |products|
    ensures Columns(products, headers, k, 2)
         == (if ShowsProduct(products, headers[0], k) then 1 else 0)
          + (if ShowsProduct(products, headers[1], k) then 1 else 0)
  {
    hide ShowsProduct;
    assert Columns(products, headers, k, 1) == if ShowsProduct(products, headers[0], k) then 1 else 0;
  }
}
