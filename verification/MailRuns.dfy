/**
 Who a mail run reaches, and what adding the same sponsors again does.
 */
module MailRuns {
  import opened Strings
  import opened SponsorSheet
  import opened Mailing

  // ---- whom one run reaches ----

  predicate CommunityDue(row: Row) {
    row.sent.None? && row.email != "" && row.kind == "Community"
  }

  /** A type of sponsor that pays, in any letter case. */
  predicate Pays(kind: string) {
    ToLower(kind) in {"platinum", "gold", "bronze"}
  }

  /** There is a draft to welcome sponsors of this type with. */
  predicate HasDraft(w: World, kind: string) {
    && (ToLower(kind) == "platinum" ==> w.draft("Cloud Native Denmark 2026 - Welcome Platinum Sponsor"))
    && (ToLower(kind) == "gold" ==> w.draft("Cloud Native Denmark 2026 - Welcome Gold Sponsor"))
    && (ToLower(kind) == "bronze" ==> w.draft("Cloud Native Denmark 2026 - Welcome Bronze Sponsor"))
  }

  lemma TierMeans(w: World, kind: string)
    ensures TierOf(kind).Some? <==> Pays(kind)
    ensures TierOf(kind).Some? ==> (w.draft(TierOf(kind).value.subject) <==> HasDraft(w, kind))
  {
    hide ToLower;
  }

  predicate PaidDue(w: World, row: Row) {
    && row.sent.None? && row.email != "" && row.freeCode != "" && row.discountCode != ""
    && Pays(row.kind) && HasDraft(w, row.kind)
  }

  /** The row is due and its two codes can be created, so the run comes to its mail. */
  predicate PaidReady(w: World, row: Row, i: nat) {
    PaidDue(w, row) && w.discount(i, row.freeCode, 100) && w.discount(i, row.discountCode, 30)
  }

  /** The mail goes out and its row can be dated: what no run survives the failure of. */
  predicate Delivered(w: World, i: nat) {
    w.mail(i) && w.write(i, 6)
  }

  predicate CommunityServed(w: World, row: Row, i: nat) {
    w.discount(i, row.freeCode, 100) && Delivered(w, i)
  }

  lemma CommunityRowDates(w: World, s: State, i: nat)
    requires i < |s.rows|
    ensures var p := CommunityRow(w, s, i);
      && (p.alive <==> (CommunityDue(s.rows[i]) ==> CommunityServed(w, s.rows[i], i)))
      && (p.s.rows[i].sent.Some? <==> s.rows[i].sent.Some? || (CommunityDue(s.rows[i]) && p.alive))
  {
    CommunityIs();
    hide Community;
  }

  lemma PaidRowDates(w: World, s: State, i: nat)
    requires i < |s.rows|
    ensures var p := PaidRow(w, s, i);
      && (p.alive <==> (PaidReady(w, s.rows[i], i) ==> Delivered(w, i)))
      && (p.s.rows[i].sent.Some? <==> s.rows[i].sent.Some? || (PaidReady(w, s.rows[i], i) && p.alive))
  {
    TierMeans(w, s.rows[i].kind);
    hide TierOf, Pays, HasDraft;
  }

  /** Every row from i up to k that is due is served: code, mail and date. */
  ghost predicate CommunityClear(w: World, rows: seq<Row>, i: nat, k: nat)
    requires k < |rows|
  {
    forall l | i <= l <= k :: CommunityDue(rows[l]) ==> CommunityServed(w, rows[l], l)
  }

  /** Every row from i up to k whose codes work also gets its mail and its date. */
  ghost predicate PaidClear(w: World, rows: seq<Row>, i: nat, k: nat)
    requires k < |rows|
  {
    forall l | i <= l <= k :: PaidReady(w, rows[l], l) ==> Delivered(w, l)
  }

  lemma {:induction false} CommunityFromReaches(digest: string -> string, w: World, s: State, i: nat, k: nat)
    requires k < |s.rows|
    ensures FromRow(digest, SendCommunity(w), s, i).rows[k].sent.Some? <==>
      s.rows[k].sent.Some? || (i <= k && CommunityDue(s.rows[k]) && CommunityClear(w, s.rows, i, k))
    decreases |s.rows| - i
  {
    hide CommunityDue, CommunityServed, CommunityRow;
    var job := SendCommunity(w);
    if i < |s.rows| {
      var p := OnRow(digest, job, s, i);
      assert p == CommunityRow(w, s, i);
      CommunityRowDates(w, s, i);
      if p.alive {
        CommunityFromReaches(digest, w, p.s, i + 1, k);
        if k == i { RunLeaves(digest, job, p.s, i + 1, k); }
      }
    }
  }

  /** A run does not touch the rows it has passed. */
  lemma {:induction false} RunLeaves(digest: string -> string, job: Job, s: State, i: nat, k: nat)
    requires k < |s.rows| && k < i
    ensures FromRow(digest, job, s, i).rows[k] == s.rows[k]
    ensures TallyOf(FromRow(digest, job, s, i).log, k) == TallyOf(s.log, k)
    decreases |s.rows| - i
  {
    hide TallyOf;
    if i < |s.rows| {
      OtherRowTally(digest, job, s, i, k);
      var p := OnRow(digest, job, s, i);
      hide OnRow;
      if p.alive { RunLeaves(digest, job, p.s, i + 1, k); }
    }
  }

  /**
   A community run dates a row exactly when the row was due, is row 5 of the sheet or below, the draft
   exists, and for every due row down to it the code, the mail and the date all succeed: the first
   failure of any of them stops the rest.
   */
  lemma CommunityRunReaches(digest: string -> string, w: World, s: State, k: nat)
    requires k < |s.rows|
    ensures RunJob(digest, SendCommunity(w), s).rows[k].sent.Some? <==>
      s.rows[k].sent.Some? ||
      (4 <= k && w.draft("Cloud Native Denmark 2026 - Welcome Community Sponsor") &&
       CommunityDue(s.rows[k]) && CommunityClear(w, s.rows, 4, k))
  {
    hide CommunityDue, FromRow, CommunityClear;
    CommunityFromReaches(digest, w, s, 4, k);
  }

  lemma {:induction false} PaidFromReaches(digest: string -> string, w: World, s: State, i: nat, k: nat)
    requires k < |s.rows|
    ensures FromRow(digest, SendPaid(w), s, i).rows[k].sent.Some? <==>
      s.rows[k].sent.Some? || (i <= k && PaidReady(w, s.rows[k], k) && PaidClear(w, s.rows, i, k))
    decreases |s.rows| - i
  {
    hide PaidReady, Delivered, PaidRow;
    var job := SendPaid(w);
    if i < |s.rows| {
      var p := OnRow(digest, job, s, i);
      assert p == PaidRow(w, s, i);
      PaidRowDates(w, s, i);
      if p.alive {
        PaidFromReaches(digest, w, p.s, i + 1, k);
        if k == i { RunLeaves(digest, job, p.s, i + 1, k); }
      }
    }
  }

  /**
   A paid run dates a row exactly when the row was due, its own two codes work, and every row down to it whose
   codes work gets its mail and its date. A missing draft or a failed code on another row changes nothing;
   a failed mail or date on an earlier one does.
   */
  lemma PaidRunReaches(digest: string -> string, w: World, s: State, k: nat)
    requires k < |s.rows|
    ensures RunJob(digest, SendPaid(w), s).rows[k].sent.Some? <==>
      s.rows[k].sent.Some? || (3 <= k && PaidReady(w, s.rows[k], k) && PaidClear(w, s.rows, 3, k))
  {
    hide PaidReady, FromRow, PaidClear;
    PaidFromReaches(digest, w, s, 3, k);
  }

  // ---- from an empty code cell to a mail ----

  predicate PaidSponsor(row: Row) {
    row.company != "" && Pays(row.kind)
  }

  /** Whatever code cells of the row have to be filled in can be written. */
  predicate CanFill(w: World, row: Row, i: nat) {
    PaidSponsor(row) ==> (row.freeCode == "" ==> w.write(i, 4)) && (row.discountCode == "" ==> w.write(i, 5))
  }

  /** The row after its turn: filled in up to the first cell that cannot be written. */
  function Filled(digest: string -> string, w: World, row: Row, i: nat): Row {
    if !PaidSponsor(row) || (row.freeCode == "" && !w.write(i, 4)) then row
    else if row.discountCode == "" && !w.write(i, 5) then row.(freeCode := WithCodes(digest, row).freeCode)
    else WithCodes(digest, row)
  }

  lemma ProcessRowFills(digest: string -> string, w: World, s: State, i: nat)
    requires i < |s.rows|
    ensures var p := ProcessRow(digest, w, s, i);
      (p.alive <==> CanFill(w, s.rows[i], i)) && p.s.rows[i] == Filled(digest, w, s.rows[i], i)
  {
    TierMeans(w, s.rows[i].kind);
    hide TierOf, Pays, HasDraft;
  }

  /** A filling run comes as far as row k: every row before it could be filled. */
  ghost predicate FillsUpTo(w: World, rows: seq<Row>, i: nat, k: nat)
    requires k < |rows|
  {
    i <= k && forall l | i <= l < k :: CanFill(w, rows[l], l)
  }

  lemma {:induction false} ProcessFromFills(digest: string -> string, w: World, s: State, i: nat, k: nat)
    requires k < |s.rows|
    ensures FromRow(digest, ProcessPaid(w), s, i).rows[k]
         == if FillsUpTo(w, s.rows, i, k) then Filled(digest, w, s.rows[k], k) else s.rows[k]
    decreases |s.rows| - i
  {
    hide CanFill, ProcessRow, Filled;
    var job := ProcessPaid(w);
    if i < |s.rows| {
      var p := OnRow(digest, job, s, i);
      assert p == ProcessRow(digest, w, s, i);
      ProcessRowFills(digest, w, s, i);
      if p.alive {
        ProcessFromFills(digest, w, p.s, i + 1, k);
        if k == i { RunLeaves(digest, job, p.s, i + 1, k); }
      }
    }
  }

  /** The rows after a filling run, each said by what stood in the sheet before it. */
  ghost function AfterFilling(digest: string -> string, w: World, rows: seq<Row>): (r: seq<Row>)
    ensures |r| == |rows|
  {
    seq(|rows|, k requires 0 <= k < |rows| =>
      if FillsUpTo(w, rows, 3, k) then Filled(digest, w, rows[k], k) else rows[k])
  }

  lemma ProcessRunFills(digest: string -> string, w: World, s: State)
    ensures RunJob(digest, ProcessPaid(w), s).rows == AfterFilling(digest, w, s.rows)
  {
    hide FromRow, FillsUpTo, Filled;
    forall k | 0 <= k < |s.rows|
      ensures FromRow(digest, ProcessPaid(w), s, 3).rows[k] == AfterFilling(digest, w, s.rows)[k]
    {
      ProcessFromFills(digest, w, s, 3, k);
    }
  }

  /**
   Filling in codes and then mailing, whatever fails in either run: a row is dated afterwards exactly when it
   was before, or when its codes as the first run left them work in the second and no row down to it, with
   codes that work too, fails to get its mail or its date. Creating codes may fail in the first run at no cost.
   */
  lemma ProcessThenSend(digest: string -> string, first: World, second: World, s: State, k: nat)
    requires k < |s.rows|
    ensures var filled := AfterFilling(digest, first, s.rows);
      RunJob(digest, SendPaid(second), RunJob(digest, ProcessPaid(first), s)).rows[k].sent.Some? <==>
      s.rows[k].sent.Some? || (3 <= k && PaidReady(second, filled[k], k) && PaidClear(second, filled, 3, k))
  {
    var filled := RunJob(digest, ProcessPaid(first), s);
    hide FromRow, Pays, RunJob, PaidReady, PaidClear, FillsUpTo;
    ProcessRunFills(digest, first, s);
    assert filled.rows[k].sent == s.rows[k].sent;
    PaidRunReaches(digest, second, filled, k);
  }

  // ---- which dated rows are final ----

  /** Nothing is left to fill in: above the rows the runs look at, no paid sponsor, or with the codes there. */
  predicate Complete(digest: string -> string, row: Row, k: nat) {
    k < 3 || !PaidSponsor(row) || WithCodes(digest, row) == row
  }

  /** For codes that are never empty that is to have both of them. */
  lemma CompleteMeans(digest: string -> string, row: Row, k: nat)
    requires digest(row.company) != "" && digest(row.company + "-discount") != ""
    ensures Complete(digest, row, k) <==>
      k < 3 || row.company == "" || !Pays(row.kind) || (row.freeCode != "" && row.discountCode != "")
  {
    hide Pays;
  }

  ghost predicate Unchanged(digest: string -> string, s: State, steps: seq<Step>, k: nat) {
    var r := AfterAll(digest, s, steps);
    k < |s.rows| && k < |r.rows| && r.rows[k] == s.rows[k]
  }

  /** On its own turn a dated complete row is left as it is, by every kind of run. */
  lemma CompleteRowStays(digest: string -> string, job: Job, s: State, i: nat)
    requires i < |s.rows| && i >= 3 && s.rows[i].sent.Some? && Complete(digest, s.rows[i], i)
    ensures OnRow(digest, job, s, i).s.rows[i] == s.rows[i]
  {
    hide TierOf, Community, MailAndMark;
    if job.ProcessPaid? {
      ProcessRowFills(digest, job.w, s, i);
      hide ProcessRow;
    }
  }

  lemma {:induction false} CompleteRowStaysInRun(digest: string -> string, job: Job, s: State, i: nat, k: nat)
    requires k < |s.rows| && i >= 3 && s.rows[k].sent.Some? && Complete(digest, s.rows[k], k)
    ensures FromRow(digest, job, s, i).rows[k] == s.rows[k]
    decreases |s.rows| - i
  {
    hide OnRow, Complete;
    if i < |s.rows| {
      if i == k { CompleteRowStays(digest, job, s, i); }
      var p := OnRow(digest, job, s, i);
      if p.alive { CompleteRowStaysInRun(digest, job, p.s, i + 1, k); }
    }
  }

  /** A dated row with nothing left to fill in never changes again. */
  lemma {:induction false} DatedRowNeverChanges(digest: string -> string, s: State, steps: seq<Step>, k: nat)
    requires k < |s.rows| && s.rows[k].sent.Some? && Complete(digest, s.rows[k], k)
    ensures Unchanged(digest, s, steps, k)
    decreases |steps|
  {
    hide FromRow, CommunityDraft, AddEntries, Complete;
    if steps != [] {
      var before, last := AfterAll(digest, s, steps[..|steps| - 1]), steps[|steps| - 1];
      DatedRowNeverChanges(digest, s, steps[..|steps| - 1], k);
      if last.Run? { CompleteRowStaysInRun(digest, last.job, before, FirstRow(last.job), k); }
    }
  }

  /** Everything works. */
  function Sunshine(): World {
    World(_ => true, (_, _, _) => true, _ => true, (_, _) => true, 0)
  }

  /** One filling run with nothing failing fills in every row that is not complete. */
  lemma FillingChanges(digest: string -> string, s: State, k: nat)
    requires k < |s.rows| && !Complete(digest, s.rows[k], k)
    ensures !Unchanged(digest, s, [Run(ProcessPaid(Sunshine()))], k)
  {
    var step := Run(ProcessPaid(Sunshine()));
    assert [step][..0] == [];
    assert AfterAll(digest, s, [step]) == RunJob(digest, ProcessPaid(Sunshine()), s);
    ProcessFromFills(digest, Sunshine(), s, 3, k);
    hide Pays, FromRow, WithCodes, AfterAll;
  }

  /**
   A dated row never changes again, over any sequence of runs, exactly when it is complete. If it is not, the
   next filling run gives it the codes it lacks, date or no date.
   */
  lemma DatedRowFinalIff(digest: string -> string, s: State, k: nat)
    requires k < |s.rows| && s.rows[k].sent.Some?
    ensures Complete(digest, s.rows[k], k) <==> forall steps :: Unchanged(digest, s, steps, k)
  {
    hide Complete, Unchanged;
    if Complete(digest, s.rows[k], k) {
      forall steps ensures Unchanged(digest, s, steps, k) { DatedRowNeverChanges(digest, s, steps, k); }
    } else {
      FillingChanges(digest, s, k);
    }
  }

  // ---- the row the community run forgets ----

  lemma {:induction false} OtherKindRun(digest: string -> string, job: Job, s: State, i: nat, k: nat)
    requires k < |s.rows| && s.rows[k].kind == Community() && (job.SendCommunity? ==> k < i)
    ensures FromRow(digest, job, s, i).rows[k].kind == Community()
    ensures TallyOf(FromRow(digest, job, s, i).log, k) == TallyOf(s.log, k)
    decreases |s.rows| - i
  {
    CommunityIsNoTier();
    hide TierOf, Community, TallyOf;
    if i < |s.rows| {
      if k != i { OtherRowTally(digest, job, s, i, k); }
      var p := OnRow(digest, job, s, i);
      assert p.s.rows[k] == s.rows[k] && TallyOf(p.s.log, k) == TallyOf(s.log, k);
      hide OnRow;
      if p.alive { OtherKindRun(digest, job, p.s, i + 1, k); }
    }
  }

  /** A community sponsor in row 4 of the sheet, index 3, is skipped by every run there is. */
  lemma {:induction false} RowFourNeverMailed(digest: string -> string, s: State, steps: seq<Step>, k: nat)
    requires k < |s.rows| && k < 4 && s.rows[k].kind == Community()
    ensures var r := AfterAll(digest, s, steps);
      k < |r.rows| && r.rows[k].kind == Community() && TallyOf(r.log, k) == TallyOf(s.log, k)
    decreases |steps|
  {
    hide FromRow, CommunityDraft, AddEntries, TallyOf, Community;
    if steps != [] {
      var before, last := AfterAll(digest, s, steps[..|steps| - 1]), steps[|steps| - 1];
      RowFourNeverMailed(digest, s, steps[..|steps| - 1], k);
      if last.Run? { OtherKindRun(digest, last.job, before, FirstRow(last.job), k); }
    }
  }

  // ---- adding the same sponsors again ----

  lemma {:induction false} ListedStays(digest: string -> string, typed: string -> string, rows: seq<Row>,
      es: seq<Entry>, name: string)
    requires Lists(rows, name)
    ensures Lists(AddEntries(digest, typed, rows, es), name)
  {
    var i :| 0 <= i < |rows| && rows[i].company == name;
    assert AddEntries(digest, typed, rows, es)[i].company == name;
  }

  lemma {:induction false} ListedNotAdded(digest: string -> string, typed: string -> string, rows: seq<Row>,
      es: seq<Entry>)
    ensures AddEntries(digest, typed, rows, es) == rows <==> forall i | 0 <= i < |es| :: Lists(rows, es[i].company)
    decreases |es|
  {
    hide Lists, NewRow;
    if es != [] {
      var init := es[..|es| - 1];
      ListedNotAdded(digest, typed, rows, init);
      var mid := AddEntries(digest, typed, rows, init);
      if mid == rows {
        assert forall i | 0 <= i < |init| :: es[i] == init[i];
      } else {
        assert |mid| > |rows|;
        var i :| 0 <= i < |init| && !Lists(rows, init[i].company);
        assert !Lists(rows, es[i].company);
      }
    }
  }

  /** Repeating a list of sponsors appends nothing exactly when the sheet now shows each of their names as it is. */
  lemma RepeatAppendsNothingIff(digest: string -> string, typed: string -> string, rows: seq<Row>, es: seq<Entry>)
    ensures var once := AddEntries(digest, typed, rows, es);
      AddEntries(digest, typed, once, es) == once <==> forall i | 0 <= i < |es| :: Lists(once, es[i].company)
  {
    hide AddEntries, Lists;
    ListedNotAdded(digest, typed, AddEntries(digest, typed, rows, es), es);
  }

  /** It does when a cell keeps each name that is entered. */
  lemma {:induction false} KeptNamesAreListed(digest: string -> string, typed: string -> string, rows: seq<Row>,
      es: seq<Entry>)
    requires forall i | 0 <= i < |es| :: typed(es[i].company) == es[i].company
    ensures forall i | 0 <= i < |es| :: Lists(AddEntries(digest, typed, rows, es), es[i].company)
    decreases |es|
  {
    if es != [] {
      var n := |es| - 1;
      var mid, all := AddEntries(digest, typed, rows, es[..n]), AddEntries(digest, typed, rows, es);
      KeptNamesAreListed(digest, typed, rows, es[..n]);
      forall i | 0 <= i < |es| ensures Lists(all, es[i].company) {
        if i < n {
          assert Lists(mid, es[..n][i].company);
          ListedStays(digest, typed, mid, [es[n]], es[i].company);
          AddOne(digest, typed, mid, es[n]);
        } else if !Lists(mid, es[n].company) {
          assert all[|mid|].company == es[n].company;
        }
      }
    }
  }

  lemma AddOne(digest: string -> string, typed: string -> string, rows: seq<Row>, e: Entry)
    ensures AddEntries(digest, typed, rows, [e]) == AddEntry(digest, typed, rows, e)
  {
    assert [e][..0] == [];
  }

  /**
   A name the sheet turns into something else is appended again every time; where the sheet keeps the kind and
   an address, each of the new rows is due a mail of its own.
   */
  lemma ChangedNameAddedAgain(digest: string -> string, typed: string -> string, rows: seq<Row>, e: Entry)
    requires !Lists(rows, e.company) && typed(e.company) != e.company
    ensures var once := AddEntry(digest, typed, rows, e);
      var twice := AddEntry(digest, typed, once, e);
      && |twice| == |once| + 1 == |rows| + 2 && rows < once < twice
      && (typed(e.email) != "" && typed("Community") == "Community" ==>
            CommunityDue(twice[|rows|]) && CommunityDue(twice[|rows| + 1]))
  {
    CommunityIs();
    hide Community;
    var once := AddEntry(digest, typed, rows, e);
    assert forall i | 0 <= i < |rows| :: once[i].company == rows[i].company;
  }
}
