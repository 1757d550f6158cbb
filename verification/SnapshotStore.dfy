/**
 internal/snapshot/snapshot.go: what one refresh derives, its stored form, and what comes back
 from the store after a restart.

 The snapshot's structs are described by the same schemas as the payload; gzip over JSON text is
 a parameter that undoes itself. Amounts are printed with two decimals, everything else exactly.
 */
module SnapshotStore {
  import opened Wrappers
  import opened Decimals
  import opened GoJson
  import opened TicketButler
  import opened Sizes
  import opened Aggregate
  import opened SponsorList

  // ---- the struct declarations ----

  function SizeCountsTy(): Ty {
    TStruct(map["small" := TInt, "medium" := TInt, "large" := TInt, "xl" := TInt, "2xl" := TInt, "3xl" := TInt])
  }

  function CountsTy(): Ty {
    TStruct(map["orders" := TInt, "tickets" := TInt])
  }

  function TicketGroupTy(): Ty {
    TStruct(map["count" := TInt, "income_ex_vat" := TFloat])
  }

  function SummaryTy(): Ty {
    TStruct(map[
      "schema_version" := TInt, "event_uuid" := TString, "counts" := CountsTy(),
      "orders_by_state" := TMap(TInt), "ticket_groups" := TMap(TicketGroupTy()),
      "tshirt_sizes" := SizeCountsTy(), "merch" := TMap(SizeCountsTy())])
  }

  function SponsorTy(): Ty {
    TStruct(map[
      "company_name" := TString, "email" := TString, "full_name" := TString,
      "ticket_type_pk" := TInt, "ticket_type_name" := TString])
  }

  function SnapshotTy(): Ty {
    TStruct(map[
      "fetched_at" := TString, "source_duration_ms" := TInt,
      "summary" := SummaryTy(), "sponsors" := TSlice(SponsorTy()), "orders" := OrdersTy()])
  }

  // ---- typed values and the structs they are ----

  /** `fetchedAt` is the instant's JSON text; `orders` is the decoded payload, every modelled field of it. */
  datatype Snapshot<+F> = Snapshot(
    fetchedAt: string, durationMs: int, summary: Summary<F>, sponsors: seq<Sponsor>, orders: Val<F>)

  function SizesVal<F>(c: SizeCounts): Val<F> {
    VStruct(map["small" := VInt(c.small), "medium" := VInt(c.medium), "large" := VInt(c.large),
                "xl" := VInt(c.xl), "2xl" := VInt(c.xxl), "3xl" := VInt(c.xxxl)])
  }

  function GroupVal<F>(g: TicketGroup<F>): Val<F> {
    VStruct(map["count" := VInt(g.count), "income_ex_vat" := VFloat(g.incomeExVat)])
  }

  function CountsVal<F>(orders: nat, tickets: nat): Val<F> {
    VStruct(map["orders" := VInt(orders), "tickets" := VInt(tickets)])
  }

  function StatesVal<F>(m: map<string, nat>): map<string, Val<F>> {
    map k | k in m :: VInt(m[k])
  }

  function GroupsVal<F>(m: map<string, TicketGroup<F>>): map<string, Val<F>> {
    map k | k in m :: GroupVal(m[k])
  }

  function MerchVal<F>(m: map<string, SizeCounts>): map<string, Val<F>> {
    map k | k in m :: SizesVal(m[k])
  }

  function SummaryVal<F>(s: Summary<F>): Val<F> {
    VStruct(map[
      "schema_version" := VInt(s.schemaVersion), "event_uuid" := VString(s.eventUuid),
      "counts" := CountsVal(s.orders, s.tickets),
      "orders_by_state" := VMap(StatesVal(s.ordersByState)),
      "ticket_groups" := VMap(GroupsVal(s.ticketGroups)),
      "tshirt_sizes" := SizesVal(s.tshirts),
      "merch" := VMap(MerchVal(s.merch))])
  }

  function SponsorVal<F>(s: Sponsor): Val<F> {
    VStruct(map["company_name" := VString(s.company), "email" := VString(s.email), "full_name" := VString(s.fullName),
                "ticket_type_pk" := VInt(s.typePk), "ticket_type_name" := VString(s.typeName)])
  }

  function SponsorsVal<F>(list: seq<Sponsor>): Val<F> {
    VSlice(seq(|list|, i requires 0 <= i < |list| => SponsorVal(list[i])))
  }

  function SnapshotVal<F>(s: Snapshot<F>): Val<F> {
    VStruct(map[
      "fetched_at" := VString(s.fetchedAt), "source_duration_ms" := VInt(s.durationMs),
      "summary" := SummaryVal(s.summary), "sponsors" := SponsorsVal(s.sponsors), "orders" := s.orders])
  }

  // ---- and back ----

  function NatAt<F>(v: Val<F>, key: string): nat {
    if IntAt(v, key) < 0 then 0 else IntAt(v, key)
  }

  function At<F>(v: Val<F>, key: string): Val<F> {
    Field(v, key).GetOr(VBool(false))
  }

  function EntriesAt<F>(v: Val<F>, key: string): map<string, Val<F>> {
    if At(v, key).VMap? then At(v, key).entries else map[]
  }

  function SizesOf<F>(v: Val<F>): SizeCounts {
    SizeCounts(NatAt(v, "small"), NatAt(v, "medium"), NatAt(v, "large"),
               NatAt(v, "xl"), NatAt(v, "2xl"), NatAt(v, "3xl"))
  }

  function GroupOf<F>(n: Floats<F>, v: Val<F>): TicketGroup<F> {
    TicketGroup(NatAt(v, "count"), NumberAt(n, v, "income_ex_vat"))
  }

  function StatesOf<F>(m: map<string, Val<F>>): map<string, nat> {
    map k | k in m :: if m[k].VInt? && m[k].i >= 0 then m[k].i else 0
  }

  function GroupsOf<F>(n: Floats<F>, m: map<string, Val<F>>): map<string, TicketGroup<F>> {
    map k | k in m :: GroupOf(n, m[k])
  }

  function MerchOfMap<F>(m: map<string, Val<F>>): map<string, SizeCounts> {
    map k | k in m :: SizesOf(m[k])
  }

  function SummaryFrom<F>(n: Floats<F>, v: Val<F>): Summary<F> {
    Summary(IntAt(v, "schema_version"), StringAt(v, "event_uuid"),
            NatAt(At(v, "counts"), "orders"), NatAt(At(v, "counts"), "tickets"),
            StatesOf(EntriesAt(v, "orders_by_state")), GroupsOf(n, EntriesAt(v, "ticket_groups")),
            SizesOf(At(v, "tshirt_sizes")), MerchOfMap(EntriesAt(v, "merch")))
  }

  function SponsorFrom<F>(v: Val<F>): Sponsor {
    Sponsor(StringAt(v, "company_name"), StringAt(v, "email"), StringAt(v, "full_name"),
            IntAt(v, "ticket_type_pk"), StringAt(v, "ticket_type_name"))
  }

  function SponsorsFrom<F>(elems: seq<Val<F>>): seq<Sponsor> {
    seq(|elems|, i requires 0 <= i < |elems| => SponsorFrom(elems[i]))
  }

  function SnapshotFrom<F>(n: Floats<F>, v: Val<F>): Snapshot<F> {
    Snapshot(StringAt(v, "fetched_at"), IntAt(v, "source_duration_ms"), SummaryFrom(n, At(v, "summary")),
             SponsorsFrom(ElemsAt(v, "sponsors")), At(v, "orders"))
  }

  lemma SizesBack<F>(c: SizeCounts)
    ensures SizesOf<F>(SizesVal(c)) == c
  {
  }

  lemma GroupBack<F>(n: Floats<F>, g: TicketGroup<F>)
    ensures GroupOf(n, GroupVal(g)) == g
  {
  }

  lemma SponsorBack<F>(s: Sponsor)
    ensures SponsorFrom<F>(SponsorVal(s)) == s
  {
  }

  lemma SponsorsBack<F>(list: seq<Sponsor>)
    ensures SponsorsVal<F>(list).VSlice? && SponsorsFrom<F>(SponsorsVal(list).elems) == list
  {
    hide SponsorVal, SponsorFrom;
    forall i | 0 <= i < |list| ensures SponsorFrom<F>(SponsorVal(list[i])) == list[i] { SponsorBack<F>(list[i]); }
  }

  lemma StatesBack<F>(m: map<string, nat>)
    ensures StatesOf<F>(StatesVal(m)) == m
  {
  }

  lemma GroupsBack<F>(n: Floats<F>, m: map<string, TicketGroup<F>>)
    ensures GroupsOf(n, GroupsVal(m)) == m
  {
    forall k | k in m ensures GroupOf(n, GroupVal(m[k])) == m[k] { GroupBack(n, m[k]); }
    hide GroupOf, GroupVal;
  }

  lemma MerchBack<F>(m: map<string, SizeCounts>)
    ensures MerchOfMap<F>(MerchVal(m)) == m
  {
    forall k | k in m ensures SizesOf<F>(SizesVal(m[k])) == m[k] { SizesBack<F>(m[k]); }
    hide SizesOf, SizesVal;
  }

  lemma SummaryFields<F>(s: Summary<F>)
    ensures var v := SummaryVal(s);
      && IntAt(v, "schema_version") == s.schemaVersion && StringAt(v, "event_uuid") == s.eventUuid
      && At(v, "counts") == CountsVal(s.orders, s.tickets)
      && EntriesAt(v, "orders_by_state") == StatesVal(s.ordersByState)
      && EntriesAt(v, "ticket_groups") == GroupsVal(s.ticketGroups)
      && At(v, "tshirt_sizes") == SizesVal(s.tshirts)
      && EntriesAt(v, "merch") == MerchVal(s.merch)
  {
    hide SizesVal, CountsVal, StatesVal, GroupsVal, MerchVal;
  }

  lemma CountsBack<F>(orders: nat, tickets: nat)
    ensures NatAt<F>(CountsVal(orders, tickets), "orders") == orders
    ensures NatAt<F>(CountsVal(orders, tickets), "tickets") == tickets
  {
  }

  lemma SummaryBack<F>(n: Floats<F>, s: Summary<F>)
    ensures SummaryFrom(n, SummaryVal(s)) == s
  {
    hide SummaryVal, SizesVal, SizesOf, CountsVal, NatAt, IntAt, StringAt, At, EntriesAt,
         StatesVal, GroupsVal, MerchVal, StatesOf, GroupsOf, MerchOfMap;
    SummaryFields(s);
    CountsBack<F>(s.orders, s.tickets);
    SizesBack<F>(s.tshirts);
    StatesBack<F>(s.ordersByState);
    GroupsBack(n, s.ticketGroups);
    MerchBack<F>(s.merch);
  }

  lemma SnapshotFields<F>(s: Snapshot<F>)
    ensures var v := SnapshotVal(s);
      && StringAt(v, "fetched_at") == s.fetchedAt && IntAt(v, "source_duration_ms") == s.durationMs
      && At(v, "summary") == SummaryVal(s.summary) && At(v, "orders") == s.orders
      && SponsorsVal<F>(s.sponsors).VSlice? && ElemsAt(v, "sponsors") == SponsorsVal<F>(s.sponsors).elems
  {
    hide SummaryVal;
  }

  lemma SnapshotBack<F>(n: Floats<F>, s: Snapshot<F>)
    ensures SnapshotFrom(n, SnapshotVal(s)) == s
  {
    SnapshotFields(s);
    SummaryBack(n, s.summary);
    SponsorsBack<F>(s.sponsors);
    hide SnapshotVal, SummaryVal, SponsorsVal, StringAt, IntAt, At, ElemsAt, SummaryFrom, SponsorsFrom;
  }

  // ---- the values have the declared types ----

  predicate SizesFit(c: SizeCounts) {
    c.small <= MAX_INT64 && c.medium <= MAX_INT64 && c.large <= MAX_INT64
    && c.xl <= MAX_INT64 && c.xxl <= MAX_INT64 && c.xxxl <= MAX_INT64
  }

  /** Every counter fits Go's int. */
  predicate CountersFit<F>(s: Summary<F>) {
    && s.schemaVersion == SCHEMA_VERSION && s.orders <= MAX_INT64 && s.tickets <= MAX_INT64
    && (forall k | k in s.ordersByState :: s.ordersByState[k] <= MAX_INT64)
    && (forall k | k in s.ticketGroups :: s.ticketGroups[k].count <= MAX_INT64)
    && SizesFit(s.tshirts)
    && (forall k | k in s.merch :: SizesFit(s.merch[k]))
  }

  lemma SizesTyped<F>(c: SizeCounts)
    requires SizesFit(c)
    ensures HasType<F>(SizeCountsTy(), SizesVal(c))
  {
  }

  lemma GroupTyped<F>(g: TicketGroup<F>)
    requires g.count <= MAX_INT64
    ensures HasType(TicketGroupTy(), GroupVal(g))
  {
  }

  lemma CountsTyped<F>(orders: nat, tickets: nat)
    requires orders <= MAX_INT64 && tickets <= MAX_INT64
    ensures HasType<F>(CountsTy(), CountsVal(orders, tickets))
  {
  }

  lemma MapTyped<F>(u: Ty, entries: map<string, Val<F>>)
    requires forall k | k in entries :: HasType(u, entries[k])
    ensures HasType(TMap(u), VMap(entries))
  {
  }

  /** One field more, on both sides. */
  lemma WithField<F>(tys: map<string, Ty>, fields: map<string, Val<F>>, k: string, ty: Ty, v: Val<F>)
    returns (tys': map<string, Ty>, fields': map<string, Val<F>>)
    requires HasType(TStruct(tys), VStruct(fields)) && HasType(ty, v)
    ensures tys' == tys[k := ty] && fields' == fields[k := v] && HasType(TStruct(tys'), VStruct(fields'))
  {
    tys', fields' := tys[k := ty], fields[k := v];
  }

  lemma NoFields<F>()
    ensures HasType<F>(TStruct(map[]), VStruct(map[]))
  {
  }

  lemma LeafTyped<F>(v: Val<F>)
    ensures v.VInt? && FitsInt64(v.i) ==> HasType(TInt, v)
    ensures v.VString? ==> HasType(TString, v)
  {
  }

  lemma SummaryMapsTyped<F>(s: Summary<F>)
    requires CountersFit(s)
    ensures HasType<F>(TMap(TInt), VMap(StatesVal(s.ordersByState)))
    ensures HasType<F>(TMap(TicketGroupTy()), VMap(GroupsVal(s.ticketGroups)))
    ensures HasType<F>(TMap(SizeCountsTy()), VMap(MerchVal(s.merch)))
  {
    hide SizesVal, GroupVal, SizeCountsTy, TicketGroupTy, SizesFit;
    forall k | k in s.merch ensures HasType<F>(SizeCountsTy(), SizesVal(s.merch[k])) { SizesTyped<F>(s.merch[k]); }
    forall k | k in s.ticketGroups ensures HasType(TicketGroupTy(), GroupVal(s.ticketGroups[k])) {
      GroupTyped(s.ticketGroups[k]);
    }
    MapTyped<F>(TInt, StatesVal(s.ordersByState));
    MapTyped<F>(TicketGroupTy(), GroupsVal(s.ticketGroups));
    MapTyped<F>(SizeCountsTy(), MerchVal(s.merch));
  }

  lemma SummaryTyped<F>(s: Summary<F>)
    requires CountersFit(s)
    ensures HasType(SummaryTy(), SummaryVal(s))
  {
    hide SizesVal, CountsVal, StatesVal, GroupsVal, MerchVal, SizeCountsTy, TicketGroupTy, CountsTy, SizesFit, HasType;
    SizesTyped<F>(s.tshirts);
    CountsTyped<F>(s.orders, s.tickets);
    SummaryMapsTyped(s);
    LeafTyped<F>(VInt(s.schemaVersion));
    LeafTyped<F>(VString(s.eventUuid));
    NoFields<F>();
    var t, v := WithField<F>(map[], map[], "schema_version", TInt, VInt(s.schemaVersion));
    t, v := WithField(t, v, "event_uuid", TString, VString(s.eventUuid));
    t, v := WithField(t, v, "counts", CountsTy(), CountsVal(s.orders, s.tickets));
    t, v := WithField(t, v, "orders_by_state", TMap(TInt), VMap(StatesVal(s.ordersByState)));
    t, v := WithField(t, v, "ticket_groups", TMap(TicketGroupTy()), VMap(GroupsVal(s.ticketGroups)));
    t, v := WithField(t, v, "tshirt_sizes", SizeCountsTy(), SizesVal(s.tshirts));
    t, v := WithField(t, v, "merch", TMap(SizeCountsTy()), VMap(MerchVal(s.merch)));
  }

  lemma SponsorTyped<F>(s: Sponsor)
    requires FitsInt64(s.typePk)
    ensures HasType<F>(SponsorTy(), SponsorVal(s))
  {
  }

  lemma SponsorsTyped<F>(list: seq<Sponsor>)
    requires forall s | s in list :: FitsInt64(s.typePk)
    ensures HasType<F>(TSlice(SponsorTy()), SponsorsVal(list))
  {
    hide SponsorTy, SponsorVal;
    forall i | 0 <= i < |list| ensures HasType<F>(SponsorTy(), SponsorVal(list[i])) { SponsorTyped<F>(list[i]); }
  }

  /** A snapshot that Go's types can hold. */
  predicate Storable<F>(s: Snapshot<F>) {
    && FitsInt64(s.durationMs) && CountersFit(s.summary)
    && (forall x | x in s.sponsors :: FitsInt64(x.typePk))
    && HasType(OrdersTy(), s.orders)
  }

  lemma SnapshotTyped<F>(s: Snapshot<F>)
    requires Storable(s)
    ensures HasType(SnapshotTy(), SnapshotVal(s))
  {
    hide SummaryVal, SponsorsVal, SummaryTy, SponsorTy, OrdersTy, CountersFit, HasType;
    SummaryTyped(s.summary);
    SponsorsTyped<F>(s.sponsors);
    LeafTyped<F>(VInt(s.durationMs));
    LeafTyped<F>(VString(s.fetchedAt));
    NoFields<F>();
    var t, v := WithField<F>(map[], map[], "fetched_at", TString, VString(s.fetchedAt));
    t, v := WithField(t, v, "source_duration_ms", TInt, VInt(s.durationMs));
    t, v := WithField(t, v, "summary", SummaryTy(), SummaryVal(s.summary));
    t, v := WithField(t, v, "sponsors", TSlice(SponsorTy()), SponsorsVal(s.sponsors));
    t, v := WithField(t, v, "orders", OrdersTy(), s.orders);
  }

  lemma OrdersSensible()
    ensures Sensible(OrdersTy())
  {
    assert OrderTy().TStruct?;
    hide OrderTy;
    OrderSensible();
  }

  lemma OrderSensible()
    ensures Sensible(OrderTy())
  {
    assert TicketTy().TStruct? && OrderLineTy().TStruct?;
    hide TicketTy, OrderLineTy, AddressTy;
    TicketSensible();
    PartsSensible();
  }

  lemma PartsSensible()
    ensures Sensible(OrderLineTy()) && Sensible(AddressTy())
  {
  }

  lemma TicketSensible()
    ensures Sensible(TicketTy())
  {
    hide AnswerCollectionTy;
    CollectionSensible();
  }

  lemma CollectionSensible()
    ensures Sensible(AnswerCollectionTy()) && AnswerCollectionTy().TStruct?
  {
  }

  predicate Derived(ty: Ty) {
    Sensible(ty) && NoAmounts(ty) && !ty.TRaw?
  }

  lemma WithDerived(tys: map<string, Ty>, k: string, ty: Ty) returns (tys': map<string, Ty>)
    requires Derived(TStruct(tys)) && Derived(ty)
    ensures tys' == tys[k := ty] && Derived(TStruct(tys'))
  {
    tys' := tys[k := ty];
  }

  lemma DerivedLeaves()
    ensures Derived(TInt) && Derived(TString) && Derived(TFloat) && Derived(TStruct(map[]))
  {
  }

  lemma DerivedMap(ty: Ty)
    requires Derived(ty)
    ensures Derived(TMap(ty)) && Derived(TSlice(ty))
  {
  }

  /** Nothing the service computes holds an amount, so none of it is rounded. */
  lemma SummaryDerived()
    ensures Derived(SummaryTy()) && Derived(SponsorTy())
  {
    PartsDerived();
    hide Derived, SizeCountsTy, CountsTy, TicketGroupTy;
    DerivedLeaves();
    DerivedMap(TInt);
    DerivedMap(TicketGroupTy());
    DerivedMap(SizeCountsTy());
    var t := WithDerived(map[], "schema_version", TInt);
    t := WithDerived(t, "event_uuid", TString);
    t := WithDerived(t, "counts", CountsTy());
    t := WithDerived(t, "orders_by_state", TMap(TInt));
    t := WithDerived(t, "ticket_groups", TMap(TicketGroupTy()));
    t := WithDerived(t, "tshirt_sizes", SizeCountsTy());
    t := WithDerived(t, "merch", TMap(SizeCountsTy()));
    hide SummaryTy;
    t := WithDerived(map[], "company_name", TString);
    t := WithDerived(t, "email", TString);
    t := WithDerived(t, "full_name", TString);
    t := WithDerived(t, "ticket_type_pk", TInt);
    t := WithDerived(t, "ticket_type_name", TString);
  }

  lemma PartsDerived()
    ensures Derived(CountsTy()) && Derived(TicketGroupTy()) && Derived(SizeCountsTy())
  {
  }

  lemma SnapshotSensible()
    ensures Sensible(SnapshotTy())
  {
    OrdersSensible();
    SummaryDerived();
    hide OrdersTy, SummaryTy, SponsorTy, NoAmounts;
  }

  // ---- the stored form ----

  /** gzip over JSON text, as one opaque pair. */
  datatype Gzip = Gzip(pack: Json -> seq<bv8>, unpack: seq<bv8> -> Option<Json>)

  function EncodeSnapshot<F>(n: Floats<F>, z: Gzip, s: Snapshot<F>): seq<bv8> {
    z.pack(Encode(n, SnapshotVal(s)))
  }

  function DecodeSnapshot<F>(n: Floats<F>, z: Gzip, data: seq<bv8>): Option<Snapshot<F>> {
    match z.unpack(data)
    case None => None
    case Some(j) => if Decodes(n, SnapshotTy(), j) then Some(SnapshotFrom(n, Decoded(n, SnapshotTy(), j))) else None
  }

  ghost predicate Unpacks<F>(n: Floats<F>, z: Gzip, s: Snapshot<F>) {
    z.unpack(EncodeSnapshot(n, z, s)) == Some(Encode(n, SnapshotVal(s)))
  }

  lemma DerivedParts<F>(n: Floats<F>, s: Snapshot<F>)
    requires Storable(s) && TextReadable(n, SummaryVal(s.summary))
    ensures Reprinted(n, SummaryVal(s.summary)) == SummaryVal(s.summary)
    ensures Reprinted(n, SponsorsVal(s.sponsors)) == SponsorsVal<F>(s.sponsors)
    ensures TextReadable(n, SponsorsVal<F>(s.sponsors))
  {
    SummaryTyped(s.summary);
    SponsorsTyped<F>(s.sponsors);
    SummaryDerived();
    SponsorsReadable(n, s.sponsors);
    hide SummaryVal, SponsorsVal, SummaryTy, SponsorTy, CountersFit, Storable;
    NoAmountsSurvive(n, SummaryTy(), SummaryVal(s.summary));
    ReprintedSame(n, SummaryVal(s.summary));
    assert NoAmounts(TSlice(SponsorTy()));
    NoAmountsSurvive(n, TSlice(SponsorTy()), SponsorsVal<F>(s.sponsors));
    ReprintedSame(n, SponsorsVal<F>(s.sponsors));
  }

  lemma SponsorsReadable<F>(n: Floats<F>, list: seq<Sponsor>)
    ensures TextReadable(n, SponsorsVal<F>(list))
  {
    hide SponsorVal;
    forall i | 0 <= i < |list| ensures TextReadable(n, SponsorVal<F>(list[i])) { SponsorReadable(n, list[i]); }
  }

  lemma SponsorReadable<F>(n: Floats<F>, s: Sponsor)
    ensures TextReadable(n, SponsorVal<F>(s))
  {
  }

  lemma SnapshotReprinted<F>(n: Floats<F>, s: Snapshot<F>)
    requires Reprinted(n, SummaryVal(s.summary)) == SummaryVal(s.summary)
    requires Reprinted(n, SponsorsVal(s.sponsors)) == SponsorsVal<F>(s.sponsors)
    ensures Reprinted(n, SnapshotVal(s)) == SnapshotVal(s.(orders := Reprinted(n, s.orders)))
  {
    hide SummaryVal, SponsorsVal;
    var a, b := Reprinted(n, SnapshotVal(s)).fields, SnapshotVal(s.(orders := Reprinted(n, s.orders))).fields;
    assert a.Keys == b.Keys;
  }

  lemma SnapshotReadable<F>(n: Floats<F>, s: Snapshot<F>)
    requires TextReadable(n, SummaryVal(s.summary)) && TextReadable(n, SponsorsVal<F>(s.sponsors))
    requires TextReadable(n, s.orders)
    ensures TextReadable(n, SnapshotVal(s)) && !Omitted(SnapshotVal(s))
  {
    hide SummaryVal, SponsorsVal;
  }

  /**
   What a restart finds in the store: every snapshot comes back, its summary and sponsors untouched,
   and its orders with each amount replaced by what its two-decimal text says.
   */
  lemma StoredAndLoaded<F>(n: Floats<F>, z: Gzip, s: Snapshot<F>)
    requires Storable(s) && Unpacks(n, z, s)
    requires TextReadable(n, SummaryVal(s.summary)) && TextReadable(n, s.orders)
    ensures DecodeSnapshot(n, z, EncodeSnapshot(n, z, s)) == Some(s.(orders := Reprinted(n, s.orders)))
  {
    SnapshotTyped(s);
    SnapshotSensible();
    DerivedParts(n, s);
    SnapshotReadable(n, s);
    SnapshotReprinted(n, s);
    hide SnapshotVal, SummaryVal, SponsorsVal, SnapshotTy, Storable, SnapshotFrom;
    RoundTrip(n, SnapshotTy(), SnapshotVal(s));
    SnapshotBack(n, s.(orders := Reprinted(n, s.orders)));
  }

  /** The stored orders are the fetched ones exactly when every amount survives its two decimals. */
  lemma OrdersSurviveIff<F>(n: Floats<F>, z: Gzip, s: Snapshot<F>)
    requires Storable(s) && Unpacks(n, z, s)
    requires TextReadable(n, SummaryVal(s.summary)) && TextReadable(n, s.orders)
    ensures DecodeSnapshot(n, z, EncodeSnapshot(n, z, s)) == Some(s) <==> AmountsSurvive(n, s.orders)
  {
    StoredAndLoaded(n, z, s);
    ReprintedSame(n, s.orders);
    hide DecodeSnapshot, EncodeSnapshot, Storable, Unpacks;
    if Reprinted(n, s.orders) != s.orders { assert s.(orders := Reprinted(n, s.orders)).orders != s.orders; }
  }
}
