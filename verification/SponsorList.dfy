/** The community sponsors: internal/aggregate/sponsors.go. */
module SponsorList {
  import opened Strings
  import opened Sorting
  import opened TicketButler
  import opened Aggregate

  datatype Sponsor = Sponsor(company: string, email: string, fullName: string, typePk: int, typeName: string)

  function SponsorOf<F>(t: Ticket<F>): Sponsor {
    Sponsor(t.company, t.email, t.fullName, t.typePk, t.typeName)
  }

  /** What identifies a company: its trimmed, lower-cased name. */
  function CompanyKey(company: string): string {
    ToLower(Trim(company))
  }

  /** What the list is sorted by: the lower-cased name, not trimmed. */
  function SortKey(s: Sponsor): string {
    ToLower(s.company)
  }

  function AllTickets<F>(orders: seq<Order<F>>): seq<Ticket<F>> {
    if orders == [] then [] else AllTickets(orders[..|orders| - 1]) + orders[|orders| - 1].tickets
  }

  predicate Candidate<F>(t: Ticket<F>, pks: seq<int>) {
    t.typePk in pks && CompanyKey(t.company) != ""
  }

  predicate SameCompany<F>(a: Ticket<F>, b: Ticket<F>) {
    CompanyKey(a.company) == CompanyKey(b.company)
  }

  /** The first sponsor ticket of its company, in payload order. */
  ghost predicate IsFirst<F>(ts: seq<Ticket<F>>, pks: seq<int>, i: int) {
    && 0 <= i < |ts| && Candidate(ts[i], pks)
    && forall k | 0 <= k < i :: !(Candidate(ts[k], pks) && SameCompany(ts[k], ts[i]))
  }

  /** The sponsors before sorting: one per company, first ticket wins. */
  ghost function Collected<F>(ts: seq<Ticket<F>>, pks: seq<int>): seq<Sponsor> {
    if ts == [] then []
    else
      var n := |ts| - 1;
      Collected(ts[..n], pks) + if IsFirst(ts, pks, n) then [SponsorOf(ts[n])] else []
  }

  /** What the sponsor list should be: the first ticket of every company and nothing else, in strict order. */
  ghost predicate IsSponsorList<F>(out: seq<Sponsor>, ts: seq<Ticket<F>>, pks: seq<int>) {
    && StrictlySortedBy(out, SortKey)
    && forall s :: s in out <==> exists i :: IsFirst(ts, pks, i) && s == SponsorOf(ts[i])
  }

  /** Which field of the ticket stands where. */
  predicate TakenFrom<F>(s: Sponsor, t: Ticket<F>) {
    && s.company == t.company && s.email == t.email && s.fullName == t.fullName
    && s.typePk == t.typePk && s.typeName == t.typeName
  }

  /** In alphabetical order of the lower-cased names, character by character. */
  ghost predicate Alphabetical(out: seq<Sponsor>) {
    forall i, j | 0 <= i < j < |out| :: Earlier(ToLower(out[i].company), ToLower(out[j].company))
  }

  /** Each sponsor is the first ticket of its company, field by field, and each company on a wanted ticket is there. */
  ghost predicate Represents<F>(out: seq<Sponsor>, ts: seq<Ticket<F>>, pks: seq<int>) {
    && (forall s | s in out :: exists i | 0 <= i < |ts| :: IsFirst(ts, pks, i) && TakenFrom(s, ts[i]))
    && (forall i | 0 <= i < |ts| && ts[i].typePk in pks && Trim(ts[i].company) != "" ::
          exists s | s in out :: ToLower(Trim(s.company)) == ToLower(Trim(ts[i].company)))
  }

  lemma ListMeans<F>(out: seq<Sponsor>, ts: seq<Ticket<F>>, pks: seq<int>)
    requires IsSponsorList(out, ts, pks)
    ensures Alphabetical(out) && Represents(out, ts, pks)
  {
    hide Trim, ToLower, Earlier;
    forall i, j | 0 <= i < j < |out| ensures Earlier(ToLower(out[i].company), ToLower(out[j].company)) {
      LessIsEarlier(SortKey(out[i]), SortKey(out[j]));
    }
    forall s | s in out ensures exists i | 0 <= i < |ts| :: IsFirst(ts, pks, i) && TakenFrom(s, ts[i]) {
      var i :| IsFirst(ts, pks, i) && s == SponsorOf(ts[i]);
      assert TakenFrom(s, ts[i]);
    }
    forall i | 0 <= i < |ts| && ts[i].typePk in pks && Trim(ts[i].company) != ""
      ensures exists s | s in out :: ToLower(Trim(s.company)) == ToLower(Trim(ts[i].company))
    {
      assert |ToLower(Trim(ts[i].company))| == |Trim(ts[i].company)|;
      assert Candidate(ts[i], pks);
      var k := FirstOfCompany(ts, pks, i);
      assert CompanyKey(ts[k].company) == CompanyKey(ts[i].company);
      assert SponsorOf(ts[k]) in out;
    }
  }

  lemma {:induction false} FirstOfCompany<F>(ts: seq<Ticket<F>>, pks: seq<int>, i: nat) returns (k: nat)
    requires i < |ts| && Candidate(ts[i], pks)
    ensures k <= i && IsFirst(ts, pks, k) && SameCompany(ts[k], ts[i])
    decreases i
  {
    hide Candidate;
    k := i;
    if l :| 0 <= l < i && Candidate(ts[l], pks) && SameCompany(ts[l], ts[i]) {
      k := FirstOfCompany(ts, pks, l);
    }
  }

  /** There is only one such list, however it was sorted. */
  lemma SponsorListUnique<F>(a: seq<Sponsor>, b: seq<Sponsor>, ts: seq<Ticket<F>>, pks: seq<int>)
    requires IsSponsorList(a, ts, pks) && IsSponsorList(b, ts, pks)
    ensures a == b
  {
    StrictlySortedUnique(a, b, SortKey);
  }

  /** Companies that differ when trimmed differ untrimmed: the sort never sees two equal keys. */
  lemma SortKeyDecidesCompany(a: string, b: string)
    requires ToLower(a) == ToLower(b)
    ensures CompanyKey(a) == CompanyKey(b)
  {
    TrimLower(a);
    TrimLower(b);
  }

  lemma IsFirstPrefix<F>(ts: seq<Ticket<F>>, pks: seq<int>, n: nat, i: int)
    requires n <= |ts| && i < n
    ensures IsFirst(ts[..n], pks, i) <==> IsFirst(ts, pks, i)
  {
    hide Candidate, SameCompany;
  }

  /** Each company is collected once, with its first ticket. */
  lemma {:induction false} CollectedIsFirsts<F>(ts: seq<Ticket<F>>, pks: seq<int>)
    ensures forall s :: s in Collected(ts, pks) <==> exists i :: IsFirst(ts, pks, i) && s == SponsorOf(ts[i])
    ensures DistinctKeys(Collected(ts, pks), (s: Sponsor) => CompanyKey(s.company))
  {
    hide Candidate, SameCompany, SponsorOf, CompanyKey;
    if ts != [] {
      var n := |ts| - 1;
      CollectedIsFirsts(ts[..n], pks);
      forall i | 0 <= i < n ensures IsFirst(ts[..n], pks, i) <==> IsFirst(ts, pks, i) { IsFirstPrefix(ts, pks, n, i); }
      if IsFirst(ts, pks, n) {
        assert ts[..n] + [ts[n]] == ts;
        forall s | s in Collected(ts[..n], pks)
          ensures CompanyKey(s.company) != CompanyKey(SponsorOf(ts[n]).company)
        {
          NewCompany(ts[..n], ts[n], pks, s);
        }
      }
    }
  }

  lemma NewCompany<F>(init: seq<Ticket<F>>, t: Ticket<F>, pks: seq<int>, s: Sponsor)
    requires IsFirst(init + [t], pks, |init|)
    requires exists i :: IsFirst(init, pks, i) && s == SponsorOf(init[i])
    ensures CompanyKey(s.company) != CompanyKey(SponsorOf(t).company)
  {
    hide CompanyKey;
    var i :| IsFirst(init, pks, i) && s == SponsorOf(init[i]);
    assert (init + [t])[i] == init[i];
  }

  lemma SortedCollectionIsSponsorList<F>(out: seq<Sponsor>, ts: seq<Ticket<F>>, pks: seq<int>)
    requires SortedBy(out, SortKey) && multiset(out) == multiset(Collected(ts, pks))
    ensures IsSponsorList(out, ts, pks)
  {
    hide IsFirst, SponsorOf, CompanyKey, SortKey;
    CollectedIsFirsts(ts, pks);
    var all := Collected(ts, pks);
    assert forall s :: s in out <==> s in multiset(out);
    assert forall s :: s in all <==> s in multiset(all);
    DistinctAfterSort(out, all);
    DistinctAreStrict(out, SortKey);
  }

  lemma DistinctAfterSort(out: seq<Sponsor>, all: seq<Sponsor>)
    requires multiset(out) == multiset(all)
    requires DistinctKeys(all, (s: Sponsor) => CompanyKey(s.company))
    ensures DistinctKeys(out, SortKey)
  {
    hide CompanyKey;
    forall i, j | 0 <= i < j < |out| ensures SortKey(out[i]) != SortKey(out[j]) {
      if SortKey(out[i]) == SortKey(out[j]) {
        SortKeyDecidesCompany(out[i].company, out[j].company);
        SameKeySameElement(out, all, i, j);
      }
    }
  }

  /** Two positions of a permutation of a list with distinct keys never share a key. */
  lemma SameKeySameElement(out: seq<Sponsor>, all: seq<Sponsor>, i: nat, j: nat)
    requires multiset(out) == multiset(all)
    requires DistinctKeys(all, (s: Sponsor) => CompanyKey(s.company))
    requires i < j < |out|
    ensures CompanyKey(out[i].company) != CompanyKey(out[j].company)
  {
    hide CompanyKey;
    Twice(out, i, j);
    AtMostOnce(all, out[i]);
    assert out[i] in multiset(all) && out[j] in multiset(all);
    var a :| 0 <= a < |all| && all[a] == out[i];
    var b :| 0 <= b < |all| && all[b] == out[j];
  }

  lemma Twice<T>(s: seq<T>, i: nat, j: nat)
    requires i < j < |s|
    ensures s[i] == s[j] ==> multiset(s)[s[i]] >= 2
  {
    assert s == s[..i] + [s[i]] + s[i + 1..j] + [s[j]] + s[j + 1..];
  }

  lemma {:induction false} AtMostOnce(all: seq<Sponsor>, s: Sponsor)
    requires DistinctKeys(all, (s: Sponsor) => CompanyKey(s.company))
    ensures multiset(all)[s] <= 1
  {
    hide CompanyKey;
    if all != [] {
      AtMostOnce(all[1..], s);
      assert all == [all[0]] + all[1..];
    }
  }

  // ---- the loops ----

  ghost predicate SeenIs<F>(seen: set<string>, ts: seq<Ticket<F>>, pks: seq<int>) {
    forall key :: key in seen <==> exists i | 0 <= i < |ts| :: Candidate(ts[i], pks) && CompanyKey(ts[i].company) == key
  }

  /** The membership test of the loop recognises exactly the first ticket of a company. */
  lemma FirstIffUnseen<F>(seen: set<string>, ts: seq<Ticket<F>>, t: Ticket<F>, pks: seq<int>)
    requires SeenIs(seen, ts, pks)
    ensures IsFirst(ts + [t], pks, |ts|) <==> Candidate(t, pks) && CompanyKey(t.company) !in seen
  {
    hide CompanyKey, Candidate;
    assert forall k | 0 <= k < |ts| :: (ts + [t])[k] == ts[k];
  }

  lemma SeenGrows<F>(seen: set<string>, ts: seq<Ticket<F>>, t: Ticket<F>, pks: seq<int>)
    requires SeenIs(seen, ts, pks)
    ensures SeenIs(if Candidate(t, pks) then seen + {CompanyKey(t.company)} else seen, ts + [t], pks)
  {
    hide CompanyKey, Candidate;
    var all := ts + [t];
    assert forall k | 0 <= k < |ts| :: all[k] == ts[k];
    assert all[|ts|] == t;
  }

  lemma NothingSeen<F>(ts: seq<Ticket<F>>, pks: seq<int>)
    requires ts == []
    ensures SeenIs({}, ts, pks)
  {
  }

  lemma NothingCollected<F>(ts: seq<Ticket<F>>, pks: seq<int>)
    requires ts == []
    ensures Collected(ts, pks) == []
  {
  }

  lemma NothingWanted<F>(ts: seq<Ticket<F>>)
    ensures IsSponsorList([], ts, [])
  {
  }

  /** Stands in for sort.Slice: some sorted permutation, written back over the slice. */
  method SortSlice(a: array<Sponsor>)
    modifies a
    ensures SortedBy(a[..], SortKey) && multiset(a[..]) == multiset(old(a[..]))
  {
    hide SortedBy, SortBy;
    var sorted := SortBy(a[..], SortKey);
    SortByIsSortedPermutation(a[..], SortKey);
    assert |sorted| == |multiset(sorted)| == |multiset(a[..])| == a.Length;
    for i := 0 to a.Length
      invariant a[..i] == sorted[..i]
    {
      a[i] := sorted[i];
    }
    assert a[..] == sorted;
  }

  method Sorted(sponsors: seq<Sponsor>) returns (out: seq<Sponsor>)
    ensures SortedBy(out, SortKey) && multiset(out) == multiset(sponsors)
  {
    var a := new Sponsor[|sponsors|](i requires 0 <= i < |sponsors| => sponsors[i]);
    assert a[..] == sponsors;
    SortSlice(a);
    out := a[..];
  }

  /** One ticket: kept when it is wanted, has a company name, and its company was not seen before. */
  method AddTicket<F>(ghost ts: seq<Ticket<F>>, ghost pks: seq<int>, wanted: set<int>,
                      seen0: set<string>, sponsors0: seq<Sponsor>, ticket: Ticket<F>)
    returns (seen: set<string>, sponsors: seq<Sponsor>)
    requires forall pk :: pk in wanted <==> pk in pks
    requires SeenIs(seen0, ts, pks) && sponsors0 == Collected(ts, pks)
    ensures SeenIs(seen, ts + [ticket], pks) && sponsors == Collected(ts + [ticket], pks)
  {
    hide CompanyKey, SeenIs, IsFirst, SponsorOf;
    seen, sponsors := seen0, sponsors0;
    FirstIffUnseen(seen, ts, ticket, pks);
    SeenGrows(seen, ts, ticket, pks);
    assert (ts + [ticket])[..|ts|] == ts;
    var key := CompanyKey(ticket.company);
    if ticket.typePk in wanted && key != "" && key !in seen {
      seen := seen + {key};
      sponsors := sponsors + [SponsorOf(ticket)];
    } else if ticket.typePk in wanted && key != "" {
      assert seen + {key} == seen;
    }
  }

  method Sponsors<F>(resp: Orders<F>, opts: Options) returns (out: seq<Sponsor>)
    ensures IsSponsorList(out, AllTickets(resp.orders), opts.sponsorPks)
    ensures Alphabetical(out) && Represents(out, AllTickets(resp.orders), opts.sponsorPks)
  {
    hide SeenIs, IsSponsorList, Collected, SortedBy, Represents, Alphabetical;
    var pks := opts.sponsorPks;
    if |pks| == 0 {
      NothingWanted(AllTickets(resp.orders));
      ListMeans([], AllTickets(resp.orders), pks);
      return [];
    }
    var wanted := {};
    for i := 0 to |pks|
      invariant forall pk :: pk in wanted <==> pk in pks[..i]
    {
      wanted := wanted + {pks[i]};
    }
    assert pks[..|pks|] == pks;
    var sponsors: seq<Sponsor>, seen: set<string> := [], {};
    ghost var ts: seq<Ticket<F>> := [];
    NothingSeen(ts, pks);
    NothingCollected(ts, pks);
    for i := 0 to |resp.orders|
      invariant ts == AllTickets(resp.orders[..i])
      invariant sponsors == Collected(ts, pks) && SeenIs(seen, ts, pks)
    {
      var order := resp.orders[i];
      ghost var before := ts;
      for j := 0 to |order.tickets|
        invariant ts == before + order.tickets[..j]
        invariant sponsors == Collected(ts, pks) && SeenIs(seen, ts, pks)
      {
        seen, sponsors := AddTicket(ts, pks, wanted, seen, sponsors, order.tickets[j]);
        ts := ts + [order.tickets[j]];
      }
      assert order.tickets[..|order.tickets|] == order.tickets;
      assert resp.orders[..i + 1][..i] == resp.orders[..i];
    }
    assert resp.orders[..|resp.orders|] == resp.orders;
    out := Sorted(sponsors);
    SortedCollectionIsSponsorList(out, ts, pks);
    ListMeans(out, ts, pks);
  }
}
