/**
 The SPONSORS sheet and its mail runs: appsscript/Sponsors.gs.

 A run reads all rows once and then works down them, while it writes into the sheet, creates
 discount codes and sends mail. Each of those may fail; `World` says which do. What a failure does
 differs: a community run dies with the first failed discount code, a paid run goes on to the next row.
 */
module SponsorSheet {
  import opened Wrappers
  import opened Strings

  /** Columns A to F. `sent` is column F, None while the cell is empty. */
  datatype Row = Row(
    company: string, email: string, kind: string, freeCode: string, discountCode: string, sent: Option<nat>)

  datatype Entry = Entry(company: string, email: string)

  /** What left the sheet, in order. Rows are counted from 0, like `values`. */
  datatype Act =
    | Code(row: nat, code: string, tickets: nat, percent: nat)
    | Mail(row: nat, to: string, codes: seq<string>)
    | Mark(row: nat)
    | MarkFailed(row: nat)

  /** How everything outside answers during one run. */
  datatype World = World(
    draft: string -> bool,                 // there is a draft with this subject
    discount: (nat, string, nat) -> bool,  // creating this row's code at this percentage succeeds
    mail: nat -> bool,                     // sending to this row succeeds
    write: (nat, nat) -> bool,             // setting this row's cell in this column succeeds
    today: nat)

  datatype State = State(rows: seq<Row>, log: seq<Act>)

  /** How far a run got: it goes on to the next row, or it died with an exception. */
  datatype Progress = Progress(s: State, alive: bool)

  datatype Tier = Tier(subject: string, free: nat, discounted: nat)

  function TierOf(kind: string): Option<Tier> {
    var k := ToLower(kind);
    if k == "platinum" then Some(Tier("Cloud Native Denmark 2026 - Welcome Platinum Sponsor", 6, 10))
    else if k == "gold" then Some(Tier("Cloud Native Denmark 2026 - Welcome Gold Sponsor", 4, 10))
    else if k == "bronze" then Some(Tier("Cloud Native Denmark 2026 - Welcome Bronze Sponsor", 2, 4))
    else None
  }

  function Community(): string { "Community" }
  function CommunityDraft(): string { "Cloud Native Denmark 2026 - Welcome Community Sponsor" }

  lemma CommunityIsNoTier()
    ensures TierOf(Community()) == None
  {
    assert ToLower(Community())[0] == 'c';
    assert "platinum"[0] == 'p' && "gold"[0] == 'g' && "bronze"[0] == 'b';
  }

  // ---- one row ----

  function Do(s: State, act: Act): State {
    s.(log := s.log + [act])
  }

  /** Sends the mail and dates the row. */
  function MailAndMark(w: World, s: State, i: nat, codes: seq<string>): Progress
    requires i < |s.rows|
  {
    if !w.mail(i) then Progress(s, false)
    else
      var mailed := Do(s, Mail(i, s.rows[i].email, codes));
      if !w.write(i, 6) then Progress(Do(mailed, MarkFailed(i)), false)
      else Progress(Do(mailed, Mark(i)).(rows := s.rows[i := s.rows[i].(sent := Some(w.today))]), true)
  }

  function CommunityRow(w: World, s: State, i: nat): Progress
    requires i < |s.rows|
  {
    var row := s.rows[i];
    if row.sent.None? && row.email != "" && row.kind == Community() then
      if !w.discount(i, row.freeCode, 100) then Progress(s, false)
      else MailAndMark(w, Do(s, Code(i, row.freeCode, 5, 100)), i, [row.freeCode])
    else Progress(s, true)
  }

  function PaidRow(w: World, s: State, i: nat): Progress
    requires i < |s.rows|
  {
    var row := s.rows[i];
    var tier := TierOf(row.kind);
    if row.email == "" || tier.None? || row.sent.Some? || row.freeCode == "" || row.discountCode == ""
       || !w.draft(tier.value.subject) || !w.discount(i, row.freeCode, 100)
    then Progress(s, true)
    else
      var one := Do(s, Code(i, row.freeCode, tier.value.free, 100));
      if !w.discount(i, row.discountCode, 30) then Progress(one, true)
      else
        var two := Do(one, Code(i, row.discountCode, tier.value.discounted, 30));
        MailAndMark(w, two, i, [row.freeCode, row.discountCode])
  }

  function WithCodes(digest: string -> string, row: Row): Row {
    row.(freeCode := if row.freeCode == "" then digest(row.company) else row.freeCode,
         discountCode := if row.discountCode == "" then digest(row.company + "-discount") else row.discountCode)
  }

  /** processPaidSponsors on one row: fill in missing codes, then create both. */
  function ProcessRow(digest: string -> string, w: World, s: State, i: nat): Progress
    requires i < |s.rows|
  {
    var row := s.rows[i];
    var tier := TierOf(row.kind);
    if row.company == "" || tier.None? then Progress(s, true)
    else if row.freeCode == "" && !w.write(i, 4) then Progress(s, false)
    else
      var full := WithCodes(digest, row);
      if row.discountCode == "" && !w.write(i, 5)
      then Progress(s.(rows := s.rows[i := row.(freeCode := full.freeCode)]), false)
      else
        var filled := s.(rows := s.rows[i := full]);
        if !w.discount(i, full.freeCode, 100) then Progress(filled, true)
        else
          var one := Do(filled, Code(i, full.freeCode, tier.value.free, 100));
          if !w.discount(i, full.discountCode, 30) then Progress(one, true)
          else Progress(Do(one, Code(i, full.discountCode, tier.value.discounted, 30)), true)
  }

  // ---- one run ----

  datatype Job = SendCommunity(w: World) | SendPaid(w: World) | ProcessPaid(w: World)

  function FirstRow(job: Job): nat {
    if job.SendCommunity? then 4 else 3
  }

  function OnRow(digest: string -> string, job: Job, s: State, i: nat): (p: Progress)
    requires i < |s.rows|
    ensures |p.s.rows| == |s.rows|
    ensures forall k | 0 <= k < |s.rows| && k != i :: p.s.rows[k] == s.rows[k]
  {
    match job
    case SendCommunity(w) => CommunityRow(w, s, i)
    case SendPaid(w) => PaidRow(w, s, i)
    case ProcessPaid(w) => ProcessRow(digest, w, s, i)
  }

  /** The rows from i on, until the run dies or the sheet ends. */
  function FromRow(digest: string -> string, job: Job, s: State, i: nat): (r: State)
    ensures |r.rows| == |s.rows|
    decreases |s.rows| - i
  {
    if i >= |s.rows| then s
    else
      var p := OnRow(digest, job, s, i);
      if p.alive then FromRow(digest, job, p.s, i + 1) else p.s
  }

  lemma NextRow(digest: string -> string, job: Job, s: State, i: nat)
    requires i < |s.rows|
    ensures FromRow(digest, job, s, i)
         == var p := OnRow(digest, job, s, i); if p.alive then FromRow(digest, job, p.s, i + 1) else p.s
  {
    hide OnRow;
  }

  lemma PastLastRow(digest: string -> string, job: Job, s: State, i: nat)
    requires i >= |s.rows|
    ensures FromRow(digest, job, s, i) == s
  {
  }

  function RunJob(digest: string -> string, job: Job, s: State): State {
    if job.SendCommunity? && !job.w.draft(CommunityDraft()) then s else FromRow(digest, job, s, FirstRow(job))
  }

  // ---- adding sponsors ----

  predicate Lists(rows: seq<Row>, company: string) {
    exists i | 0 <= i < |rows| :: rows[i].company == company
  }

  /** `typed` is what the sheet makes of a text entered into a cell. */
  function NewRow(digest: string -> string, typed: string -> string, e: Entry): Row {
    Row(typed(e.company), typed(e.email), typed(Community()), typed(digest(e.company)), "", None)
  }

  function AddEntry(digest: string -> string, typed: string -> string, rows: seq<Row>, e: Entry): seq<Row> {
    if Lists(rows, e.company) then rows else rows + [NewRow(digest, typed, e)]
  }

  function AddEntries(digest: string -> string, typed: string -> string, rows: seq<Row>, es: seq<Entry>): (r: seq<Row>)
    ensures rows <= r
    decreases |es|
  {
    if es == [] then rows
    else AddEntry(digest, typed, AddEntries(digest, typed, rows, es[..|es| - 1]), es[|es| - 1])
  }

  // ---- the sheet ----

  /** The draft and the ticket numbers of a paid sponsor type, in any letter case. */
  method PaidTier(sponsorType: string) returns (tier: Option<Tier>)
    ensures tier == TierOf(sponsorType)
    ensures tier.Some? <==> ToLower(sponsorType) in {"platinum", "gold", "bronze"}
  {
    var typeLower := ToLower(sponsorType);
    if typeLower != "bronze" && typeLower != "gold" && typeLower != "platinum" { return None; }
    var draftSubject, freeTickets, discountTickets := "", 0, 0;
    if typeLower == "platinum" {
      draftSubject := "Cloud Native Denmark 2026 - Welcome Platinum Sponsor";
      freeTickets, discountTickets := 6, 10;
    } else if typeLower == "gold" {
      draftSubject := "Cloud Native Denmark 2026 - Welcome Gold Sponsor";
      freeTickets, discountTickets := 4, 10;
    } else if typeLower == "bronze" {
      draftSubject := "Cloud Native Denmark 2026 - Welcome Bronze Sponsor";
      freeTickets, discountTickets := 2, 4;
    }
    return Some(Tier(draftSubject, freeTickets, discountTickets));
  }

  class Sheet {
    var rows: seq<Row>
    ghost var log: seq<Act>

    ghost function Now(): State
      reads this
    {
      State(rows, log)
    }

    constructor (rows: seq<Row>)
      ensures Now() == State(rows, [])
    {
      this.rows, log := rows, [];
    }

    method SetCell(i: nat, row: Row)
      requires i < |rows|
      modifies this`rows
      ensures rows == old(rows)[i := row]
    {
      rows := rows[i := row];
    }

    /** Appends the sponsor unless a row already holds exactly this name. */
    method UpdateSponsorSheetCommunity(digest: string -> string, typed: string -> string, e: Entry)
      modifies this`rows
      ensures rows == AddEntry(digest, typed, old(rows), e)
    {
      var values := rows;
      var foundCompany := false;
      for i := 0 to |values|
        invariant !foundCompany && forall k | 0 <= k < i :: values[k].company != e.company
      {
        if values[i].company == e.company {
          foundCompany := true;
          break;
        }
      }
      if !foundCompany {
        rows := rows + [Row(typed(e.company), typed(e.email), typed("Community"), typed(digest(e.company)), "", None)];
      }
    }

    method AddAll(digest: string -> string, typed: string -> string, es: seq<Entry>)
      modifies this`rows
      ensures rows == AddEntries(digest, typed, old(rows), es)
    {
      for i := 0 to |es|
        invariant rows == AddEntries(digest, typed, old(rows), es[..i])
      {
        assert es[..i + 1][..i] == es[..i];
        UpdateSponsorSheetCommunity(digest, typed, es[i]);
      }
      assert es[..|es|] == es;
    }

    /** Sends one mail and dates its row; false when an exception ends the run. */
    method SendMail(w: World, i: nat, email: string, codes: seq<string>) returns (alive: bool)
      requires i < |rows| && rows[i].email == email
      modifies this
      ensures Progress(Now(), alive) == MailAndMark(w, old(Now()), i, codes)
    {
      if !w.mail(i) { return false; }
      log := log + [Mail(i, email, codes)];
      if !w.write(i, 6) {
        log := log + [MarkFailed(i)];
        return false;
      }
      log := log + [Mark(i)];
      SetCell(i, rows[i].(sent := Some(w.today)));
      return true;
    }

    method SendCommunitySponsorCodes(ghost digest: string -> string, w: World)
      modifies this
      ensures Now() == RunJob(digest, SendCommunity(w), old(Now()))
    {
      hide FromRow, MailAndMark;
      ghost var job := SendCommunity(w);
      if !w.draft("Cloud Native Denmark 2026 - Welcome Community Sponsor") { return; }
      var values := rows;
      var i := 4;
      while i < |values|
        invariant |rows| == |values| && forall k | i <= k < |values| :: rows[k] == values[k]
        invariant FromRow(digest, job, old(Now()), 4) == FromRow(digest, job, Now(), i)
      {
        ghost var before := Now();
        NextRow(digest, job, before, i);
        assert OnRow(digest, job, before, i) == CommunityRow(w, before, i);
        var row := values[i];
        if row.sent.None? && row.email != "" && row.kind == "Community" {
          if !w.discount(i, row.freeCode, 100) { return; }
          log := log + [Code(i, row.freeCode, 5, 100)];
          var alive := SendMail(w, i, row.email, [row.freeCode]);
          assert Progress(Now(), alive) == CommunityRow(w, before, i);
          if !alive { return; }
        }
        i := i + 1;
      }
      PastLastRow(digest, job, Now(), i);
    }

    method SendPaidSponsorCodes(ghost digest: string -> string, w: World)
      modifies this
      ensures Now() == RunJob(digest, SendPaid(w), old(Now()))
    {
      hide FromRow, MailAndMark, TierOf;
      ghost var job := SendPaid(w);
      var values := rows;
      var i := 3;
      while i < |values|
        invariant |rows| == |values| && forall k | i <= k < |values| :: rows[k] == values[k]
        invariant FromRow(digest, job, old(Now()), 3) == FromRow(digest, job, Now(), i)
      {
        ghost var before := Now();
        NextRow(digest, job, before, i);
        assert OnRow(digest, job, before, i) == PaidRow(w, before, i);
        var row := values[i];
        i := i + 1;
        if row.email == "" { continue; }
        var tier := PaidTier(row.kind);
        if tier.None? { continue; }
        if row.sent.None? && row.freeCode != "" && row.discountCode != "" {
          if !w.draft(tier.value.subject) { continue; }
          if !w.discount(i - 1, row.freeCode, 100) { continue; }
          log := log + [Code(i - 1, row.freeCode, tier.value.free, 100)];
          if !w.discount(i - 1, row.discountCode, 30) { continue; }
          log := log + [Code(i - 1, row.discountCode, tier.value.discounted, 30)];
          var alive := SendMail(w, i - 1, row.email, [row.freeCode, row.discountCode]);
          assert Progress(Now(), alive) == PaidRow(w, before, i - 1);
          if !alive { return; }
        }
      }
      PastLastRow(digest, job, Now(), i);
    }

    method ProcessPaidSponsors(digest: string -> string, w: World)
      modifies this
      ensures Now() == RunJob(digest, ProcessPaid(w), old(Now()))
    {
      hide FromRow, TierOf;
      ghost var job := ProcessPaid(w);
      var values := rows;
      var i := 3;
      while i < |values|
        invariant |rows| == |values| && forall k | i <= k < |values| :: rows[k] == values[k]
        invariant FromRow(digest, job, old(Now()), 3) == FromRow(digest, job, Now(), i)
      {
        ghost var before := Now();
        NextRow(digest, job, before, i);
        assert OnRow(digest, job, before, i) == ProcessRow(digest, w, before, i);
        var row := values[i];
        i := i + 1;
        if row.company == "" { continue; }
        var tier := PaidTier(row.kind);
        if tier.None? { continue; }
        var freeCode := row.freeCode;
        if freeCode == "" {
          freeCode := digest(row.company);
          if !w.write(i - 1, 4) { return; }
          SetCell(i - 1, rows[i - 1].(freeCode := freeCode));
        }
        var discountCode := row.discountCode;
        if discountCode == "" {
          discountCode := digest(row.company + "-discount");
          if !w.write(i - 1, 5) { return; }
          SetCell(i - 1, rows[i - 1].(discountCode := discountCode));
        }
        assert rows == before.rows[i - 1 := WithCodes(digest, row)];
        if w.discount(i - 1, freeCode, 100) {
          log := log + [Code(i - 1, freeCode, tier.value.free, 100)];
          if w.discount(i - 1, discountCode, 30) {
            log := log + [Code(i - 1, discountCode, tier.value.discounted, 30)];
          }
        }
        assert Now() == ProcessRow(digest, w, before, i - 1).s;
      }
      PastLastRow(digest, job, Now(), i);
    }
  }
}
