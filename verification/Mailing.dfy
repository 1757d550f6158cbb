/**
 What the sponsor mail runs guarantee over any sequence of runs, whatever fails in each of them.
 */
module Mailing {
  import opened Strings
  import opened SponsorSheet

  /** One thing that happens to the sheet: a mail or code run, or a list of sponsors being added. */
  datatype Step = Run(job: Job) | Add(typed: string -> string, entries: seq<Entry>)

  function After(digest: string -> string, s: State, step: Step): State {
    match step
    case Run(job) => RunJob(digest, job, s)
    case Add(typed, entries) => s.(rows := AddEntries(digest, typed, s.rows, entries))
  }

  function AfterAll(digest: string -> string, s: State, steps: seq<Step>): State
    decreases |steps|
  {
    if steps == [] then s else After(digest, AfterAll(digest, s, steps[..|steps| - 1]), steps[|steps| - 1])
  }

  // ---- counting ----

  datatype Tally = Tally(mails: nat, marks: nat, failed: nat)

  function TallyOf(log: seq<Act>, i: nat): Tally {
    if log == [] then Tally(0, 0, 0)
    else
      var t := TallyOf(log[..|log| - 1], i);
      var act := log[|log| - 1];
      if act.row != i then t
      else match act
        case Mail(_, _, _) => t.(mails := t.mails + 1)
        case Mark(_) => t.(marks := t.marks + 1)
        case MarkFailed(_) => t.(failed := t.failed + 1)
        case Code(_, _, _, _) => t
  }

  lemma TallyDo(s: State, act: Act, i: nat)
    ensures TallyOf(Do(s, act).log, i)
         == var t := TallyOf(s.log, i);
            if act.row != i then t
            else match act
              case Mail(_, _, _) => t.(mails := t.mails + 1)
              case Mark(_) => t.(marks := t.marks + 1)
              case MarkFailed(_) => t.(failed := t.failed + 1)
              case Code(_, _, _, _) => t
  {
    assert (s.log + [act])[..|s.log|] == s.log;
  }

  /** Every mail to the row was followed by one attempt to date it, and it is dated at most once. */
  ghost predicate RowAccounted(s: State, i: nat) {
    var t := TallyOf(s.log, i);
    t.mails == t.marks + t.failed && t.marks <= 1 && (t.marks == 1 ==> i < |s.rows| && s.rows[i].sent.Some?)
  }

  lemma MailAndMarkTally(w: World, s: State, i: nat, codes: seq<string>, k: nat)
    requires i < |s.rows| && s.rows[i].sent.None? && RowAccounted(s, k)
    ensures RowAccounted(MailAndMark(w, s, i, codes).s, k)
    ensures k != i ==> TallyOf(MailAndMark(w, s, i, codes).s.log, k) == TallyOf(s.log, k)
  {
    hide TallyOf, Do;
    var m := Mail(i, s.rows[i].email, codes);
    TallyDo(s, m, k);
    TallyDo(Do(s, m), MarkFailed(i), k);
    TallyDo(Do(s, m), Mark(i), k);
    DoRows(s, m);
    DoRows(Do(s, m), MarkFailed(i));
  }

  lemma DoRows(s: State, act: Act)
    ensures Do(s, act).rows == s.rows && Do(s, act).log == s.log + [act]
  {
  }

  lemma CodeTally(s: State, act: Act, k: nat)
    requires act.Code?
    ensures TallyOf(Do(s, act).log, k) == TallyOf(s.log, k)
    ensures RowAccounted(s, k) ==> RowAccounted(Do(s, act), k)
  {
    TallyDo(s, act, k);
    DoRows(s, act);
    hide TallyOf;
  }

  lemma RowKeepsAccount(digest: string -> string, job: Job, s: State, i: nat, k: nat)
    requires i < |s.rows| && RowAccounted(s, k)
    ensures RowAccounted(OnRow(digest, job, s, i).s, k)
    ensures k != i ==> TallyOf(OnRow(digest, job, s, i).s.log, k) == TallyOf(s.log, k)
  {
    hide TallyOf, Do, MailAndMark, TierOf, Community;
    var row := s.rows[i];
    match job
    case SendCommunity(w) =>
      var c := Code(i, row.freeCode, 5, 100);
      DoRows(s, c);
      CodeTally(s, c, k);
      if row.sent.None? { MailAndMarkTally(w, Do(s, c), i, [row.freeCode], k); }
    case SendPaid(w) =>
      var tier := TierOf(row.kind);
      if tier.Some? && row.sent.None? {
        var c, d := Code(i, row.freeCode, tier.value.free, 100), Code(i, row.discountCode, tier.value.discounted, 30);
        DoRows(s, c);
        DoRows(Do(s, c), d);
        CodeTally(s, c, k);
        CodeTally(Do(s, c), d, k);
        MailAndMarkTally(w, Do(Do(s, c), d), i, [row.freeCode, row.discountCode], k);
      }
    case ProcessPaid(w) =>
      var tier := TierOf(row.kind);
      if tier.Some? {
        var full := WithCodes(digest, row);
        var filled := s.(rows := s.rows[i := full]);
        var c, d := Code(i, full.freeCode, tier.value.free, 100), Code(i, full.discountCode, tier.value.discounted, 30);
        DoRows(filled, c);
        DoRows(Do(filled, c), d);
        CodeTally(filled, c, k);
        CodeTally(Do(filled, c), d, k);
      }
  }

  lemma {:induction false} RunKeepsAccount(digest: string -> string, job: Job, s: State, i: nat, k: nat)
    requires RowAccounted(s, k)
    ensures RowAccounted(FromRow(digest, job, s, i), k)
    ensures k < i ==> TallyOf(FromRow(digest, job, s, i).log, k) == TallyOf(s.log, k)
    decreases |s.rows| - i
  {
    hide OnRow, RowAccounted;
    if i < |s.rows| {
      RowKeepsAccount(digest, job, s, i, k);
      RunKeepsAccount(digest, job, OnRow(digest, job, s, i).s, i + 1, k);
    }
  }

  lemma StepKeepsAccount(digest: string -> string, s: State, step: Step, k: nat)
    requires RowAccounted(s, k)
    ensures RowAccounted(After(digest, s, step), k)
  {
    match step
    case Run(job) =>
      hide FromRow, RowAccounted, CommunityDraft;
      RunKeepsAccount(digest, job, s, FirstRow(job), k);
    case Add(typed, entries) => hide AddEntries, TallyOf;
  }

  lemma {:induction false} AllKeepAccount(digest: string -> string, s: State, steps: seq<Step>, k: nat)
    requires RowAccounted(s, k)
    ensures RowAccounted(AfterAll(digest, s, steps), k)
    decreases |steps|
  {
    hide RowAccounted, After;
    if steps != [] {
      AllKeepAccount(digest, s, steps[..|steps| - 1], k);
      StepKeepsAccount(digest, AfterAll(digest, s, steps[..|steps| - 1]), steps[|steps| - 1], k);
    }
  }

  /**
   Over any runs with any failures a row is mailed once for every attempt to date it, at most one of
   which succeeded: at most once if dating never fails.
   */
  lemma MailedAtMostOnce(digest: string -> string, rows: seq<Row>, steps: seq<Step>, i: nat)
    ensures var t := TallyOf(AfterAll(digest, State(rows, []), steps).log, i);
      t.mails == t.marks + t.failed && t.marks <= 1
  {
    AllKeepAccount(digest, State(rows, []), steps, i);
    hide AfterAll, TallyOf;
  }

  // ---- what never changes ----

  /** A row later: who it is stays, a date stays, and a code stays once there is one or when no tier needs one. */
  predicate KeptRow(a: Row, b: Row) {
    && b.company == a.company && b.email == a.email && b.kind == a.kind
    && (a.sent.Some? ==> b.sent == a.sent)
    && (a.freeCode != "" || TierOf(a.kind).None? ==> b.freeCode == a.freeCode)
    && (a.discountCode != "" || TierOf(a.kind).None? ==> b.discountCode == a.discountCode)
  }

  ghost predicate Kept(a: State, b: State) {
    a.log <= b.log && |a.rows| <= |b.rows| && forall i | 0 <= i < |a.rows| :: KeptRow(a.rows[i], b.rows[i])
  }

  lemma KeptTransitive(a: State, b: State, c: State)
    requires Kept(a, b) && Kept(b, c)
    ensures Kept(a, c)
  {
    hide TierOf;
    forall i | 0 <= i < |a.rows| ensures KeptRow(a.rows[i], c.rows[i]) {
      assert KeptRow(a.rows[i], b.rows[i]) && KeptRow(b.rows[i], c.rows[i]);
    }
  }

  lemma RowIsKept(digest: string -> string, job: Job, s: State, i: nat)
    requires i < |s.rows|
    ensures Kept(s, OnRow(digest, job, s, i).s)
  {
    hide TierOf, Community;
    var r := OnRow(digest, job, s, i).s;
    assert KeptRow(s.rows[i], r.rows[i]);
    hide OnRow;
    assert forall k | 0 <= k < |s.rows| :: KeptRow(s.rows[k], s.rows[k]);
    LogGrows(digest, job, s, i);
  }

  lemma LogGrows(digest: string -> string, job: Job, s: State, i: nat)
    requires i < |s.rows|
    ensures s.log <= OnRow(digest, job, s, i).s.log
  {
    hide TierOf, Community;
  }

  lemma {:induction false} RunIsKept(digest: string -> string, job: Job, s: State, i: nat)
    ensures Kept(s, FromRow(digest, job, s, i))
    decreases |s.rows| - i
  {
    if i < |s.rows| {
      var p := OnRow(digest, job, s, i);
      RowIsKept(digest, job, s, i);
      hide OnRow, Kept;
      if p.alive {
        RunIsKept(digest, job, p.s, i + 1);
        KeptTransitive(s, p.s, FromRow(digest, job, p.s, i + 1));
      }
    }
  }

  lemma StepIsKept(digest: string -> string, s: State, step: Step)
    ensures Kept(s, After(digest, s, step))
  {
    hide TierOf, CommunityDraft;
    if step.Run? {
      RunIsKept(digest, step.job, s, FirstRow(step.job));
    }
  }

  /** Over any runs: no row goes away, and no row loses its sponsor, its date or a code it has. */
  lemma {:induction false} RowsAreKept(digest: string -> string, s: State, steps: seq<Step>)
    ensures Kept(s, AfterAll(digest, s, steps))
    decreases |steps|
  {
    hide After, TierOf;
    if steps != [] {
      var before := AfterAll(digest, s, steps[..|steps| - 1]);
      RowsAreKept(digest, s, steps[..|steps| - 1]);
      StepIsKept(digest, before, steps[|steps| - 1]);
      KeptTransitive(s, before, AfterAll(digest, s, steps));
    }
  }

  /**
   The codes are the exception: its turn in a filling run changes a row, dated or not, exactly when it is a paid
   sponsor with a name, a code is missing, and the first missing one's cell can be written.
   */
  lemma FillingChangesIff(digest: string -> string, w: World, s: State, i: nat)
    requires i < |s.rows| && digest(s.rows[i].company) != "" && digest(s.rows[i].company + "-discount") != ""
    ensures ProcessRow(digest, w, s, i).s.rows[i] != s.rows[i] <==>
      && s.rows[i].company != "" && TierOf(s.rows[i].kind).Some?
      && (if s.rows[i].freeCode == "" then w.write(i, 4) else s.rows[i].discountCode == "" && w.write(i, 5))
  {
    hide TierOf;
  }

  // ---- a dated row is never mailed again ----

  lemma DatedRowSkipped(digest: string -> string, job: Job, s: State, i: nat, k: nat)
    requires i < |s.rows| && k < |s.rows| && s.rows[k].sent.Some?
    ensures OnRow(digest, job, s, i).s.rows[k].sent == s.rows[k].sent
    ensures TallyOf(OnRow(digest, job, s, i).s.log, k) == TallyOf(s.log, k)
  {
    RowIsKept(digest, job, s, i);
    hide TallyOf, TierOf, Community, Do, MailAndMark, Kept;
    assert Kept(s, OnRow(digest, job, s, i).s) ==> KeptRow(s.rows[k], OnRow(digest, job, s, i).s.rows[k]) by {
      KeptAt(s, OnRow(digest, job, s, i).s, k);
    }
    if k != i {
      OtherRowTally(digest, job, s, i, k);
    } else {
      OwnCodesTally(digest, job, s, i);
    }
  }

  lemma KeptAt(a: State, b: State, k: nat)
    requires k < |a.rows| <= |b.rows|
    ensures Kept(a, b) ==> KeptRow(a.rows[k], b.rows[k])
  {
    hide TierOf;
  }

  /** Work on a row leaves the tallies of all other rows alone. */
  lemma OtherRowTally(digest: string -> string, job: Job, s: State, i: nat, k: nat)
    requires i < |s.rows| && k != i
    ensures TallyOf(OnRow(digest, job, s, i).s.log, k) == TallyOf(s.log, k)
  {
    var log := OnRow(digest, job, s, i).s.log;
    ActsOfRow(digest, job, s, i);
    hide OnRow;
    TallyOfOthers(s.log, log, i, k);
  }

  lemma ActsOfRow(digest: string -> string, job: Job, s: State, i: nat)
    requires i < |s.rows|
    ensures var log := OnRow(digest, job, s, i).s.log;
      s.log <= log && forall p | |s.log| <= p < |log| :: log[p].row == i
  {
    hide TierOf, Community;
  }

  lemma {:induction false} TallyOfOthers(a: seq<Act>, b: seq<Act>, i: nat, k: nat)
    requires a <= b && k != i && forall p | |a| <= p < |b| :: b[p].row == i
    ensures TallyOf(b, k) == TallyOf(a, k)
    decreases |b|
  {
    if |b| > |a| {
      TallyOfOthers(a, b[..|b| - 1], i, k);
    } else {
      assert a == b;
    }
  }

  /** On a dated row at most codes are created. */
  lemma OwnCodesTally(digest: string -> string, job: Job, s: State, i: nat)
    requires i < |s.rows| && s.rows[i].sent.Some?
    ensures TallyOf(OnRow(digest, job, s, i).s.log, i) == TallyOf(s.log, i)
  {
    hide TallyOf, TierOf, Community, Do, MailAndMark;
    var row := s.rows[i];
    if job.ProcessPaid? {
      var tier := TierOf(row.kind);
      if tier.Some? {
        var full := WithCodes(digest, row);
        var filled := s.(rows := s.rows[i := full]);
        var c, d := Code(i, full.freeCode, tier.value.free, 100), Code(i, full.discountCode, tier.value.discounted, 30);
        CodeTally(filled, c, i);
        CodeTally(Do(filled, c), d, i);
      }
    }
  }

  lemma {:induction false} DatedRowSkippedByRun(digest: string -> string, job: Job, s: State, i: nat, k: nat)
    requires k < |s.rows| && s.rows[k].sent.Some?
    ensures var r := FromRow(digest, job, s, i);
      r.rows[k].sent == s.rows[k].sent && TallyOf(r.log, k) == TallyOf(s.log, k)
    decreases |s.rows| - i
  {
    hide OnRow;
    if i < |s.rows| {
      DatedRowSkipped(digest, job, s, i, k);
      var p := OnRow(digest, job, s, i);
      if p.alive { DatedRowSkippedByRun(digest, job, p.s, i + 1, k); }
    }
  }

  lemma {:induction false} DatedRowNeverMailed(digest: string -> string, s: State, steps: seq<Step>, k: nat)
    requires k < |s.rows| && s.rows[k].sent.Some?
    ensures var r := AfterAll(digest, s, steps);
      k < |r.rows| && r.rows[k].sent == s.rows[k].sent && TallyOf(r.log, k) == TallyOf(s.log, k)
    decreases |steps|
  {
    hide FromRow, CommunityDraft, AddEntries, TallyOf;
    if steps != [] {
      var before, last := AfterAll(digest, s, steps[..|steps| - 1]), steps[|steps| - 1];
      DatedRowNeverMailed(digest, s, steps[..|steps| - 1], k);
      if last.Run? { DatedRowSkippedByRun(digest, last.job, before, FirstRow(last.job), k); }
    }
  }

  // ---- every mail is right ----

  /** How many free and how many reduced tickets a paid sponsor of this type gets. */
  predicate PaidNumbers(kind: string, free: nat, reduced: nat) {
    var k := ToLower(kind);
    || (k == "platinum" && free == 6 && reduced == 10)
    || (k == "gold" && free == 4 && reduced == 10)
    || (k == "bronze" && free == 2 && reduced == 4)
  }

  lemma TierNumbers(kind: string)
    requires TierOf(kind).Some?
    ensures PaidNumbers(kind, TierOf(kind).value.free, TierOf(kind).value.discounted)
  {
    hide ToLower;
  }

  lemma CommunityIs()
    ensures Community() == "Community"
  {
  }

  /** The codes in the mail at p were created just before it, for the numbers the row's kind gets. */
  predicate CodesCreated(rows: seq<Row>, log: seq<Act>, p: nat)
    requires p < |log| && log[p].Mail? && log[p].row < |rows|
  {
    var i := log[p].row;
    var row := rows[i];
    if row.kind == "Community" then
      p >= 1 && log[p].codes == [row.freeCode] && log[p - 1] == Code(i, row.freeCode, 5, 100)
    else
      && p >= 2 && log[p - 2].Code? && log[p - 1].Code? && row.freeCode != "" && row.discountCode != ""
      && log[p].codes == [row.freeCode, row.discountCode]
      && PaidNumbers(row.kind, log[p - 2].tickets, log[p - 1].tickets)
      && log[p - 2] == Code(i, row.freeCode, log[p - 2].tickets, 100)
      && log[p - 1] == Code(i, row.discountCode, log[p - 1].tickets, 30)
  }

  predicate MailRight(rows: seq<Row>, log: seq<Act>, p: nat)
    requires p < |log|
  {
    log[p].Mail? ==>
      log[p].row < |rows| && log[p].to == rows[log[p].row].email && log[p].to != "" && CodesCreated(rows, log, p)
  }

  ghost predicate MailsRight(s: State) {
    forall p: nat | p < |s.log| :: MailRight(s.rows, s.log, p)
  }

  /** A right mail stays right: neither its row nor what was logged before it changes. */
  lemma MailStaysRight(a: State, b: State, p: nat)
    requires Kept(a, b) && p < |a.log| && MailRight(a.rows, a.log, p)
    ensures MailRight(b.rows, b.log, p)
  {
    CommunityIsNoTier();
    CommunityIs();
    hide TierOf, Community, PaidNumbers;
    var act := a.log[p];
    assert b.log[p] == act;
    if act.Mail? {
      assert KeptRow(a.rows[act.row], b.rows[act.row]);
      assert p >= 1 ==> b.log[p - 1] == a.log[p - 1];
      assert p >= 2 ==> b.log[p - 2] == a.log[p - 2];
    }
  }

  lemma NewMailRight(w: World, s: State, i: nat, codes: seq<string>)
    requires i < |s.rows| && s.rows[i].email != ""
    requires CodesCreated(s.rows, s.log + [Mail(i, s.rows[i].email, codes)], |s.log|)
    ensures var r := MailAndMark(w, s, i, codes).s;
      s.log <= r.log && forall p: nat | |s.log| <= p < |r.log| :: MailRight(r.rows, r.log, p)
  {
    hide TierOf, Community, PaidNumbers;
  }

  lemma CommunityMailsRight(w: World, s: State, i: nat, p: nat)
    requires i < |s.rows| && |s.log| <= p < |CommunityRow(w, s, i).s.log|
    ensures var r := CommunityRow(w, s, i).s; MailRight(r.rows, r.log, p)
  {
    CommunityIs();
    hide TierOf, Community, MailAndMark, PaidNumbers;
    var row := s.rows[i];
    if row.email != "" && row.kind == Community() {
      NewMailRight(w, Do(s, Code(i, row.freeCode, 5, 100)), i, [row.freeCode]);
    }
  }

  lemma PaidMailsRight(w: World, s: State, i: nat, p: nat)
    requires i < |s.rows| && |s.log| <= p < |PaidRow(w, s, i).s.log|
    ensures var r := PaidRow(w, s, i).s; MailRight(r.rows, r.log, p)
  {
    CommunityIs();
    CommunityIsNoTier();
    hide TierOf, Community, MailAndMark, PaidNumbers;
    var row := s.rows[i];
    var tier := TierOf(row.kind);
    if row.email != "" && tier.Some? && row.freeCode != "" && row.discountCode != "" {
      TierNumbers(row.kind);
      var one := Do(s, Code(i, row.freeCode, tier.value.free, 100));
      var t := Do(one, Code(i, row.discountCode, tier.value.discounted, 30));
      NewMailRight(w, t, i, [row.freeCode, row.discountCode]);
    }
  }

  lemma RowMailsRight(digest: string -> string, job: Job, s: State, i: nat, p: nat)
    requires i < |s.rows| && |s.log| <= p < |OnRow(digest, job, s, i).s.log|
    ensures var r := OnRow(digest, job, s, i).s; MailRight(r.rows, r.log, p)
  {
    hide TierOf, CommunityRow, PaidRow, ProcessRow, CodesCreated;
    match job
    case SendCommunity(w) => CommunityMailsRight(w, s, i, p);
    case SendPaid(w) => PaidMailsRight(w, s, i, p);
    case ProcessPaid(w) => OnlyCodes(digest, w, s, i, p);
  }

  /** A filling run sends no mail. */
  lemma OnlyCodes(digest: string -> string, w: World, s: State, i: nat, p: nat)
    requires i < |s.rows| && |s.log| <= p < |ProcessRow(digest, w, s, i).s.log|
    ensures ProcessRow(digest, w, s, i).s.log[p].Code?
  {
    hide TierOf;
  }

  lemma {:induction false} RunMailsRight(digest: string -> string, job: Job, s: State, i: nat)
    requires MailsRight(s)
    ensures MailsRight(FromRow(digest, job, s, i))
    decreases |s.rows| - i
  {
    if i < |s.rows| {
      var n := OnRow(digest, job, s, i);
      RowIsKept(digest, job, s, i);
      forall p: nat | p < |n.s.log| ensures MailRight(n.s.rows, n.s.log, p) {
        if p < |s.log| { MailStaysRight(s, n.s, p); } else { RowMailsRight(digest, job, s, i, p); }
      }
      hide OnRow, MailRight, Kept;
      if n.alive { RunMailsRight(digest, job, n.s, i + 1); }
    }
  }

  /**
   Over any runs: every mail went to the address in its row, with the codes in its row, which had
   been created just before it for the number of tickets the kind of sponsor gets.
   */
  lemma {:induction false} EveryMailIsRight(digest: string -> string, s: State, steps: seq<Step>)
    requires MailsRight(s)
    ensures MailsRight(AfterAll(digest, s, steps))
    decreases |steps|
  {
    hide MailRight, FromRow, CommunityDraft, AddEntries;
    if steps != [] {
      var before, last := AfterAll(digest, s, steps[..|steps| - 1]), steps[|steps| - 1];
      EveryMailIsRight(digest, s, steps[..|steps| - 1]);
      if last.Run? {
        RunMailsRight(digest, last.job, before, FirstRow(last.job));
      } else {
        var after := After(digest, before, last);
        StepIsKept(digest, before, last);
        forall p: nat | p < |after.log| ensures MailRight(after.rows, after.log, p) {
          MailStaysRight(before, after, p);
        }
      }
    }
  }
}
