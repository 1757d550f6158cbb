/**
 The refresh/read protocol of internal/snapshot/refresher.go as a transition system.

 Any number of Refresh and Current calls run at once. Each call has a program counter and
 moves one step at a time; the steps are cut at the lock and store boundaries, so every
 interleaving of the real code is a run here. A run is a sequence of events, and an event
 names the call that moves and how its environment answered (did the fetch, the encoding,
 the save, the load succeed?).

 Snapshots are numbered in the order they are built; 0 is what an earlier process left in
 the store. Nothing here assumes that the cache only moves forward: Current reads the
 cache, loads the store and writes the cache in three separate steps.
 */
module Protocol {
  import opened Wrappers

  type Call = nat
  type Version = nat

  /** What the store holds: an encoded snapshot, or bytes that do not decode. */
  datatype Blob = Good(version: Version) | Corrupt

  datatype Outcome = FetchFailed | EncodeFailed | NotStored(version: Version) | Stored(version: Version)

  datatype Pc =
    // Refresh
    | Waiting                                     // about to take refreshMu
    | Fetching                                    // holds refreshMu, fetching and encoding
    | Saving(version: Version)                    // built and encoded, about to Save
    | Publishing(version: Version, saved: bool)   // about to setCached
    | Leaving(outcome: Outcome)                   // about to release refreshMu
    | Refreshed(outcome: Outcome)
    // Current
    | Reading                                     // about to read the cache
    | Loading                                     // saw nil, about to Load
    | Filling(version: Version)                   // saw nil and loaded this, about to setCached
    | Served(version: Version)
    | Unserved

  datatype State = State(
    cached: Option<Version>,
    store: Option<Blob>,
    refreshMu: Option<Call>,
    built: Version,
    calls: map<Call, Pc>)

  datatype Event =
    | CallRefresh(t: Call) | Lock(t: Call) | FetchFail(t: Call) | EncodeFail(t: Call) | Build(t: Call)
    | SaveOk(t: Call) | SaveFail(t: Call) | Publish(t: Call) | Unlock(t: Call)
    | CallCurrent(t: Call) | Read(t: Call) | LoadFail(t: Call) | Load(t: Call) | Fill(t: Call)

  predicate At(s: State, t: Call, pc: Pc) {
    t in s.calls && s.calls[t] == pc
  }

  predicate Enabled(s: State, e: Event) {
    match e
    case CallRefresh(t) => t !in s.calls
    case CallCurrent(t) => t !in s.calls
    case Lock(t) => At(s, t, Waiting) && s.refreshMu.None?
    case FetchFail(t) => At(s, t, Fetching)
    case EncodeFail(t) => At(s, t, Fetching)
    case Build(t) => At(s, t, Fetching)
    case SaveOk(t) => t in s.calls && s.calls[t].Saving?
    case SaveFail(t) => t in s.calls && s.calls[t].Saving?
    case Publish(t) => t in s.calls && s.calls[t].Publishing?
    case Unlock(t) => t in s.calls && s.calls[t].Leaving?
    case Read(t) => At(s, t, Reading)
    case LoadFail(t) => At(s, t, Loading)
    case Load(t) => At(s, t, Loading)
    case Fill(t) => t in s.calls && s.calls[t].Filling?
  }

  function Move(s: State, t: Call, pc: Pc): State {
    s.(calls := s.calls[t := pc])
  }

  function Next(s: State, e: Event): State
    requires Enabled(s, e)
  {
    match e
    case CallRefresh(t) => Move(s, t, Waiting)
    case Lock(t) => Move(s.(refreshMu := Some(t)), t, Fetching)
    case FetchFail(t) => Move(s, t, Leaving(FetchFailed))
    case EncodeFail(t) => Move(s, t, Leaving(EncodeFailed))
    case Build(t) => Move(s.(built := s.built + 1), t, Saving(s.built + 1))
    case SaveOk(t) =>
      var v := s.calls[t].version;
      Move(s.(store := Some(Good(v))), t, Publishing(v, true))
    case SaveFail(t) => Move(s, t, Publishing(s.calls[t].version, false))
    case Publish(t) =>
      var Publishing(v, saved) := s.calls[t];
      Move(s.(cached := Some(v)), t, Leaving(if saved then Stored(v) else NotStored(v)))
    case Unlock(t) => Move(s.(refreshMu := None), t, Refreshed(s.calls[t].outcome))
    case CallCurrent(t) => Move(s, t, Reading)
    case Read(t) => Move(s, t, if s.cached.Some? then Served(s.cached.value) else Loading)
    case LoadFail(t) => Move(s, t, Unserved)
    case Load(t) =>
      Move(s, t, if s.store.Some? && s.store.value.Good? then Filling(s.store.value.version) else Unserved)
    case Fill(t) =>
      var v := s.calls[t].version;
      Move(s.(cached := Some(v)), t, Served(v))
  }

  predicate Runs(s: State, es: seq<Event>)
    decreases |es|
  {
    es == [] || (Enabled(s, es[0]) && Runs(Next(s, es[0]), es[1..]))
  }

  function Exec(s: State, es: seq<Event>): State
    requires Runs(s, es)
    decreases |es|
  {
    if es == [] then s else Exec(Next(s, es[0]), es[1..])
  }

  /** A process start: nothing cached, no call in flight, whatever was left in the store. */
  predicate Initial(s: State) {
    s.cached.None? && s.refreshMu.None? && s.calls == map[] && s.built == 0
    && (s.store.Some? && s.store.value.Good? ==> s.store.value.version == 0)
  }

  lemma {:induction false} ExecAppend(s: State, a: seq<Event>, b: seq<Event>)
    ensures Runs(s, a + b) <==> Runs(s, a) && Runs(Exec(s, a), b)
    ensures Runs(s, a + b) ==> Exec(s, a + b) == Exec(Exec(s, a), b)
    ensures Runs(s, a + b) ==> Falls(s, a + b) == Falls(s, a) + Falls(Exec(s, a), b)
    decreases |a|
  {
    if a == [] {
      assert a + b == b;
    } else {
      assert (a + b)[0] == a[0] && (a + b)[1..] == a[1..] + b;
      if Enabled(s, a[0]) { ExecAppend(Next(s, a[0]), a[1..], b); }
    }
  }

  // ---- the invariant ----

  predicate HoldsLock(pc: Pc) {
    pc.Fetching? || pc.Saving? || pc.Publishing? || pc.Leaving?
  }

  /** The cold readers: Current calls that saw nil and have not finished. */
  predicate IsCold(pc: Pc) {
    pc.Loading? || pc.Filling?
  }

  function Cold(s: State): set<Call> {
    set t | t in s.calls && IsCold(s.calls[t])
  }

  predicate PcOk(s: State, pc: Pc) {
    match pc
    case Saving(v) => v == s.built
    case Publishing(v, _) => v == s.built
    case Filling(v) => v <= s.built
    case Served(v) => v <= s.built
    case Leaving(o) => (o.NotStored? || o.Stored?) ==> o.version == s.built
    case Refreshed(o) => (o.NotStored? || o.Stored?) ==> o.version <= s.built
    case _ => true
  }

  ghost predicate Inv(s: State) {
    && (s.refreshMu.Some? ==> s.refreshMu.value in s.calls)
    && (forall t | t in s.calls :: HoldsLock(s.calls[t]) <==> s.refreshMu == Some(t))
    && (forall t | t in s.calls :: PcOk(s, s.calls[t]))
    && (s.cached.Some? ==> s.cached.value <= s.built)
    && (s.store.Some? && s.store.value.Good? ==> s.store.value.version <= s.built)
  }

  /** What a step says of the call it moves. */
  lemma MovedOk(s: State, e: Event)
    requires Inv(s) && Enabled(s, e)
    ensures var n := Next(s, e);
      e.t in n.calls && PcOk(n, n.calls[e.t]) && (HoldsLock(n.calls[e.t]) <==> n.refreshMu == Some(e.t))
  {
    assert e.t in s.calls ==> PcOk(s, s.calls[e.t]) && (HoldsLock(s.calls[e.t]) <==> s.refreshMu == Some(e.t));
  }

  /** And of the others: they are where they were, and versions only become possible, never impossible. */
  lemma OthersOk(s: State, e: Event, t: Call)
    requires Inv(s) && Enabled(s, e) && t != e.t && t in Next(s, e).calls
    ensures var n := Next(s, e);
      PcOk(n, n.calls[t]) && (HoldsLock(n.calls[t]) <==> n.refreshMu == Some(t))
  {
    assert PcOk(s, s.calls[t]) && (HoldsLock(s.calls[t]) <==> s.refreshMu == Some(t));
    assert e.t in s.calls ==> (HoldsLock(s.calls[e.t]) <==> s.refreshMu == Some(e.t));
  }

  lemma GlobalsOk(s: State, e: Event)
    requires Inv(s) && Enabled(s, e)
    ensures var n := Next(s, e);
      && (n.refreshMu.Some? ==> n.refreshMu.value in n.calls)
      && (n.cached.Some? ==> n.cached.value <= n.built)
      && (n.store.Some? && n.store.value.Good? ==> n.store.value.version <= n.built)
  {
    assert e.t in s.calls ==> PcOk(s, s.calls[e.t]);
  }

  lemma InvNext(s: State, e: Event)
    requires Inv(s) && Enabled(s, e)
    ensures Inv(Next(s, e))
  {
    var n := Next(s, e);
    MovedOk(s, e);
    GlobalsOk(s, e);
    forall t | t in n.calls
      ensures PcOk(n, n.calls[t]) && (HoldsLock(n.calls[t]) <==> n.refreshMu == Some(t))
    {
      hide Next, Enabled, PcOk, HoldsLock, Inv;
      if t != e.t { OthersOk(s, e, t); }
    }
    hide Next, Enabled, PcOk, HoldsLock;
  }

  lemma {:induction false} InvExec(s: State, es: seq<Event>)
    requires Inv(s) && Runs(s, es)
    ensures Inv(Exec(s, es))
    decreases |es|
  {
    if es != [] {
      InvNext(s, es[0]);
      InvExec(Next(s, es[0]), es[1..]);
    }
  }

  /** Every state a process can reach: refreshes are serialised and versions are bounded. */
  lemma Reachable(s: State, es: seq<Event>)
    requires Initial(s) && Runs(s, es)
    ensures Inv(Exec(s, es))
  {
    InvExec(s, es);
  }

  // ---- when the cached version can fall ----

  predicate IsFall(s: State, e: Event)
    requires Enabled(s, e)
  {
    var n := Next(s, e);
    s.cached.Some? && n.cached.Some? && n.cached.value < s.cached.value
  }

  function Falls(s: State, es: seq<Event>): nat
    requires Runs(s, es)
    decreases |es|
  {
    if es == [] then 0 else (if IsFall(s, es[0]) then 1 else 0) + Falls(Next(s, es[0]), es[1..])
  }

  lemma {:induction false} CacheStaysSet(s: State, es: seq<Event>)
    requires Runs(s, es) && s.cached.Some?
    ensures Exec(s, es).cached.Some?
    decreases |es|
  {
    if es != [] { CacheStaysSet(Next(s, es[0]), es[1..]); }
  }

  /** The only step that can move the cache backwards is a cold reader writing what it loaded. */
  lemma FallsOnlyAtColdFill(s: State, e: Event)
    requires Inv(s) && Enabled(s, e) && IsFall(s, e)
    ensures e.Fill? && e.t in Cold(s)
    ensures Next(s, e).cached == Some(s.calls[e.t].version)
  {
    assert e.t in s.calls ==> PcOk(s, s.calls[e.t]);
  }

  /** Once the cache is set no call becomes a cold reader; filling ends being one. */
  lemma ColdNext(s: State, e: Event)
    requires Enabled(s, e) && s.cached.Some?
    ensures Cold(Next(s, e)) <= Cold(s)
    ensures e.Fill? ==> Cold(Next(s, e)) == Cold(s) - {e.t} && e.t in Cold(s)
  {
    var n := Next(s, e);
    assert forall t | t in n.calls && t != e.t :: t in s.calls && n.calls[t] == s.calls[t];
  }

  lemma SubsetCard<T>(a: set<T>, b: set<T>)
    requires a <= b
    ensures |a| <= |b|
  {
    assert b == a + (b - a);
  }

  /** Each fall uses up a cold reader: at most as many falls remain as cold readers in flight. */
  lemma {:induction false} FallsBounded(s: State, es: seq<Event>)
    requires Inv(s) && Runs(s, es) && s.cached.Some?
    ensures Falls(s, es) + |Cold(Exec(s, es))| <= |Cold(s)|
    decreases |es|
  {
    if es != [] {
      var e, n := es[0], Next(s, es[0]);
      InvNext(s, e);
      ColdNext(s, e);
      SubsetCard(Cold(n), Cold(s));
      if IsFall(s, e) { FallsOnlyAtColdFill(s, e); }
      FallsBounded(n, es[1..]);
    }
  }

  /**
   Whole runs from a process start: split at the event that first sets the cache, the falls
   of the run are at most the cold readers in flight at that moment.
   */
  lemma FallsOfWholeRun(s: State, before: seq<Event>, first: Event, after: seq<Event>)
    requires Initial(s) && Runs(s, before + [first] + after)
    requires Runs(s, before) && Exec(s, before).cached.None?
    requires Runs(s, before + [first]) && Exec(s, before + [first]).cached.Some?
    ensures Falls(s, before + [first] + after) <= |Cold(Exec(s, before + [first]))|
  {
    ExecAppend(s, before + [first], after);
    ExecAppend(s, before, [first]);
    assert Falls(Exec(s, before), [first]) == 0;
    NoFallsWhileUnset(s, before);
    Reachable(s, before + [first]);
    FallsBounded(Exec(s, before + [first]), after);
  }

  lemma {:induction false} NoFallsWhileUnset(s: State, es: seq<Event>)
    requires Runs(s, es) && Exec(s, es).cached.None?
    ensures Falls(s, es) == 0
    decreases |es|
  {
    if es != [] {
      if s.cached.Some? { CacheStaysSet(s, es); }
      NoFallsWhileUnset(Next(s, es[0]), es[1..]);
    }
  }

  // ---- the bound is reached ----

  lemma FreshCall(s: State) returns (t: Call)
    ensures t !in s.calls
  {
    t := Above(s.calls.Keys);
  }

  lemma {:induction false} Above(ks: set<Call>) returns (t: Call)
    ensures forall k | k in ks :: k < t
  {
    t := 0;
    if ks != {} {
      var k :| k in ks;
      var u := Above(ks - {k});
      t := if k < u then u else k + 1;
      assert ks == (ks - {k}) + {k};
    }
  }

  /** Nothing but call t has moved. */
  ghost predicate OnlyMoved(s: State, n: State, t: Call) {
    t in n.calls && n.calls.Keys == s.calls.Keys + {t} && forall c | c in s.calls && c != t :: n.calls[c] == s.calls[c]
  }

  lemma OnlyMovedCold(s: State, n: State, t: Call)
    requires OnlyMoved(s, n, t) && t !in Cold(s) && !IsCold(n.calls[t])
    ensures Cold(n) == Cold(s) && forall c | c in Cold(s) :: c in n.calls && n.calls[c] == s.calls[c]
  {
  }

  /** The rest of a refresh that has built and encoded its snapshot. */
  lemma FromBuilt(s: State, t: Call, v: Version, saved: bool)
    requires At(s, t, Saving(v))
    ensures var es := [if saved then SaveOk(t) else SaveFail(t), Publish(t), Unlock(t)];
      && Runs(s, es) && Exec(s, es).refreshMu.None? && Exec(s, es).built == s.built
      && Exec(s, es).cached == Some(v) && Exec(s, es).store == (if saved then Some(Good(v)) else s.store)
      && OnlyMoved(s, Exec(s, es), t) && Exec(s, es).calls[t] == Refreshed(if saved then Stored(v) else NotStored(v))
  {
    Unroll3(s, [if saved then SaveOk(t) else SaveFail(t), Publish(t), Unlock(t)]);
  }

  /** A refresh from its call to the built and encoded snapshot. */
  lemma UntilBuilt(s: State, t: Call)
    requires s.refreshMu.None? && t !in s.calls
    ensures var es := [CallRefresh(t), Lock(t), Build(t)];
      && Runs(s, es) && At(Exec(s, es), t, Saving(s.built + 1)) && Exec(s, es).built == s.built + 1
      && Exec(s, es).cached == s.cached && Exec(s, es).store == s.store && OnlyMoved(s, Exec(s, es), t)
  {
    Unroll3(s, [CallRefresh(t), Lock(t), Build(t)]);
  }

  /** Before and after that stretch a refresh can simply leave. */
  lemma FromElsewhere(s: State, t: Call) returns (es: seq<Event>)
    requires t in s.calls && (s.calls[t].Fetching? || s.calls[t].Publishing? || s.calls[t].Leaving?)
    ensures Runs(s, es) && Exec(s, es).refreshMu.None?
    ensures OnlyMoved(s, Exec(s, es), t) && Exec(s, es).calls[t].Refreshed?
    ensures s.cached.Some? ==> Exec(s, es).cached.Some?
    ensures forall i | 0 <= i < |es| :: !es[i].Fill?
  {
    if s.calls[t].Fetching? {
      es := [FetchFail(t), Unlock(t)];
    } else if s.calls[t].Publishing? {
      es := [Publish(t), Unlock(t)];
    } else {
      es := [Unlock(t)];
    }
    Unroll3(s, es);
  }

  /** Whoever holds refreshMu can leave without a fall and without disturbing a reader. */
  lemma FinishHolder(s: State) returns (es: seq<Event>)
    requires Inv(s) && s.cached.Some?
    ensures Runs(s, es) && Falls(s, es) == 0
    ensures var n := Exec(s, es);
            Inv(n) && n.refreshMu.None? && n.cached.Some?
            && forall c | c in Cold(s) :: c in n.calls && n.calls[c] == s.calls[c]
    ensures Cold(Exec(s, es)) == Cold(s)
  {
    es := [];
    if s.refreshMu.Some? {
      var t := s.refreshMu.value;
      assert t in s.calls && HoldsLock(s.calls[t]);
      assert t !in Cold(s);
      hide Next, Enabled, Inv, Cold, Falls;
      if s.calls[t].Saving? {
        es := [SaveFail(t), Publish(t), Unlock(t)];
        FromBuilt(s, t, s.calls[t].version, false);
      } else {
        es := FromElsewhere(s, t);
      }
      OnlyMovedCold(s, Exec(s, es), t);
      NoFallWithoutFill(s, es);
      InvExec(s, es);
    }
  }

  /** Spells out runs of at most three events. */
  lemma Unroll3(s: State, es: seq<Event>)
    requires |es| <= 3
    requires |es| >= 1 ==> Enabled(s, es[0])
    requires |es| >= 2 ==> Enabled(Next(s, es[0]), es[1])
    requires |es| >= 3 ==> Enabled(Next(Next(s, es[0]), es[1]), es[2])
    ensures Runs(s, es)
    ensures |es| == 1 ==> (Exec(s, es) == Next(s, es[0]))
    ensures |es| == 2 ==> (Exec(s, es) == Next(Next(s, es[0]), es[1]))
    ensures |es| == 3 ==> (Exec(s, es) == Next(Next(Next(s, es[0]), es[1]), es[2]))
    ensures (forall i | 0 <= i < |es| :: !es[i].Publish? && !es[i].Fill?) ==> Falls(s, es) == 0
    ensures |es| == 1 ==> (Falls(s, es) == if IsFall(s, es[0]) then 1 else 0)
    decreases |es|
  {
    if |es| >= 1 {
      assert |es| >= 2 ==> es[1..][0] == es[1];
      assert |es| >= 3 ==> es[1..][1] == es[2];
      Unroll3(Next(s, es[0]), es[1..]);
    }
  }

  /** No refresh step moves the cache backwards. */
  lemma {:induction false} NoFallWithoutFill(s: State, es: seq<Event>)
    requires Inv(s) && Runs(s, es) && forall i | 0 <= i < |es| :: !es[i].Fill?
    ensures Falls(s, es) == 0
    decreases |es|
  {
    if es != [] {
      assert !IsFall(s, es[0]) by {
        if IsFall(s, es[0]) { FallsOnlyAtColdFill(s, es[0]); assert false; }
      }
      InvNext(s, es[0]);
      NoFallWithoutFill(Next(s, es[0]), es[1..]);
    }
  }

  /** With refreshMu free, a whole successful refresh can run; it publishes a newer version. */
  lemma RunRefresh(s: State) returns (es: seq<Event>)
    requires Inv(s) && s.cached.Some? && s.refreshMu.None?
    ensures Runs(s, es) && Falls(s, es) == 0
    ensures var n := Exec(s, es);
            Inv(n) && n.refreshMu.None? && n.cached == Some(n.built) && n.built == s.built + 1
            && n.store == Some(Good(n.built))
            && forall c | c in Cold(s) :: c in n.calls && n.calls[c] == s.calls[c]
    ensures Cold(Exec(s, es)) == Cold(s)
  {
    var t := FreshCall(s);
    var a, b := [CallRefresh(t), Lock(t), Build(t)], [SaveOk(t), Publish(t), Unlock(t)];
    assert t !in Cold(s);
    hide Next, Enabled, Inv, Cold, Falls, Exec, Runs;
    UntilBuilt(s, t);
    FromBuilt(Exec(s, a), t, s.built + 1, true);
    es := a + b;
    ExecAppend(s, a, b);
    OnlyMovedCold(s, Exec(s, es), t);
    NoFallWithoutFill(s, es);
    InvExec(s, es);
  }

  /** A cold reader goes as far as holding what it loaded. */
  lemma LoadCold(s: State, c: Call) returns (es: seq<Event>)
    requires Inv(s) && s.cached.Some? && s.refreshMu.None? && c in Cold(s)
    requires s.store.Some? && s.store.value.Good?
    ensures Runs(s, es) && Falls(s, es) == 0
    ensures var n := Exec(s, es);
            Inv(n) && n.cached.Some? && n.refreshMu.None? && Cold(n) == Cold(s)
            && c in n.calls && n.calls[c].Filling?
  {
    es := if s.calls[c].Loading? then [Load(c)] else [];
    Unroll3(s, es);
    InvExec(s, es);
  }

  lemma FillFalls(s: State, c: Call)
    requires Inv(s) && s.cached.Some? && c in s.calls && s.calls[c].Filling? && s.calls[c].version < s.cached.value
    ensures Runs(s, [Fill(c)]) && Falls(s, [Fill(c)]) == 1
    ensures var n := Exec(s, [Fill(c)]); Inv(n) && n.cached.Some? && Cold(n) == Cold(s) - {c}
  {
    Unroll3(s, [Fill(c)]);
    ColdNext(s, Fill(c));
    InvNext(s, Fill(c));
  }

  /** Any one cold reader can be made to cause a fall, leaving the other cold readers as they are. */
  lemma CauseFall(s: State, c: Call) returns (es: seq<Event>)
    requires Inv(s) && s.cached.Some? && c in Cold(s)
    ensures Runs(s, es) && Falls(s, es) == 1
    ensures Inv(Exec(s, es)) && Exec(s, es).cached.Some?
    ensures Cold(Exec(s, es)) == Cold(s) - {c}
  {
    var e1 := FinishHolder(s);
    var s1 := Exec(s, e1);
    var e2 := RunRefresh(s1);
    var s2 := Exec(s1, e2);
    var e3 := LoadCold(s2, c);
    var s3 := Exec(s2, e3);
    assert PcOk(s3, s3.calls[c]) && s3.calls[c].version <= s3.built && c in Cold(s3);
    var e4 := RunRefresh(s3);
    var s4 := Exec(s3, e4);
    hide Next, Enabled, Inv, Cold, Falls, Exec, Runs;
    FillFalls(s4, c);
    es := e1 + e2 + e3 + e4 + [Fill(c)];
    ExecAppend(s, e1 + e2 + e3 + e4, [Fill(c)]);
    ExecAppend(s, e1 + e2 + e3, e4);
    ExecAppend(s, e1 + e2, e3);
    ExecAppend(s, e1, e2);
  }

  /** From every reachable state with a set cache, some continuation falls exactly once per cold reader. */
  lemma {:induction false} FallsAttained(s: State) returns (es: seq<Event>)
    requires Inv(s) && s.cached.Some?
    ensures Runs(s, es) && Falls(s, es) == |Cold(s)|
    decreases |Cold(s)|
  {
    es := [];
    if Cold(s) != {} {
      var c :| c in Cold(s);
      var first := CauseFall(s, c);
      var rest := FallsAttained(Exec(s, first));
      ExecAppend(s, first, rest);
      es := first + rest;
    }
  }

  /** Exactly when the cache is monotone: no cold reader is in flight. */
  lemma MonotoneIffNoColdReader(s: State)
    requires Inv(s) && s.cached.Some?
    ensures Cold(s) == {} <==> forall es | Runs(s, es) :: Falls(s, es) == 0
  {
    if Cold(s) == {} {
      forall es | Runs(s, es) ensures Falls(s, es) == 0 { FallsBounded(s, es); }
    } else {
      var es := FallsAttained(s);
      assert Falls(s, es) > 0;
    }
  }

  // ---- what a warmed process guarantees ----

  /** Warm as one uninterrupted Current call: it fills the cache exactly when the store decodes. */
  lemma WarmFills(s: State, t: Call)
    requires Initial(s)
    ensures var es := [CallCurrent(t), Read(t), Load(t)];
            Runs(s, es) &&
            (s.store == Some(Good(0)) <==> At(Exec(s, es), t, Filling(0))) &&
            (s.store == Some(Good(0)) ==>
              Runs(s, es + [Fill(t)]) && Warmed(Exec(s, es + [Fill(t)])) && Exec(s, es + [Fill(t)]).built == 0)
  {
    var es := [CallCurrent(t), Read(t), Load(t)];
    Unroll3(s, es);
    var m := Exec(s, es);
    if s.store == Some(Good(0)) {
      assert m.calls[t] == Filling(0);
      Unroll3(m, [Fill(t)]);
      ExecAppend(s, es, [Fill(t)]);
      InvExec(s, es + [Fill(t)]);
    }
  }

  ghost predicate Warmed(s: State) {
    Inv(s) && s.cached == Some(s.built) && s.store == Some(Good(s.built)) && s.refreshMu.None? && Cold(s) == {}
  }

  /** With no cold reader in flight, one step moves the cache only forward, and a new read serves it. */
  lemma ReadStep(s: State, e: Event, t: Call)
    requires Inv(s) && Enabled(s, e) && s.cached.Some? && Cold(s) == {}
    requires t in s.calls ==>
               (s.calls[t].Reading? || (s.calls[t].Served? && s.calls[t].version >= s.cached.value))
    ensures var n := Next(s, e);
      && Inv(n) && n.cached.Some? && Cold(n) == {} && n.cached.value >= s.cached.value
      && (t in n.calls && n.calls[t].Served? ==> n.calls[t].version >= s.cached.value)
      && (t in n.calls ==> !IsCold(n.calls[t]))
  {
    InvNext(s, e);
    ColdNext(s, e);
    if IsFall(s, e) { FallsOnlyAtColdFill(s, e); }
    NoneCold(Next(s, e));
  }

  lemma NoneCold(s: State)
    requires Cold(s) == {}
    ensures forall t | t in s.calls :: !IsCold(s.calls[t])
  {
    forall t | t in s.calls ensures !IsCold(s.calls[t]) { assert t !in Cold(s); }
  }

  /** A Current call that has not read the cache yet when it holds version v serves v or later. */
  lemma {:induction false} ReadsAreAtLeastAsNew(s: State, es: seq<Event>, t: Call)
    requires Inv(s) && Runs(s, es) && s.cached.Some? && Cold(s) == {}
    requires t in s.calls ==>
               (s.calls[t].Reading? || (s.calls[t].Served? && s.calls[t].version >= s.cached.value))
    requires t in Exec(s, es).calls && Exec(s, es).calls[t].Served?
    ensures Exec(s, es).calls[t].version >= s.cached.value
    decreases |es|
  {
    if es != [] {
      var n := Next(s, es[0]);
      hide Next, Enabled, Inv, Cold, IsCold;
      ReadStep(s, es[0], t);
      if t in n.calls && !(n.calls[t].Reading? || n.calls[t].Served?) {
        NeverServed(n, es[1..], t);
      } else if t in n.calls && n.calls[t].Served? {
        ServedStays(n, es[1..], t);
      } else {
        ReadsAreAtLeastAsNew(n, es[1..], t);
      }
    }
  }

  lemma {:induction false} ServedStays(s: State, es: seq<Event>, t: Call)
    requires Runs(s, es) && t in s.calls && s.calls[t].Served?
    ensures t in Exec(s, es).calls && Exec(s, es).calls[t] == s.calls[t]
    decreases |es|
  {
    if es != [] { ServedStays(Next(s, es[0]), es[1..], t); }
  }

  /** A refresh never serves a reader, and with the cache set a new Current call goes straight to Served. */
  lemma {:induction false} NeverServed(s: State, es: seq<Event>, t: Call)
    requires Runs(s, es) && t in s.calls && s.cached.Some?
    requires !s.calls[t].Reading? && !s.calls[t].Served? && !IsCold(s.calls[t])
    ensures t in Exec(s, es).calls && !Exec(s, es).calls[t].Served?
    decreases |es|
  {
    if es != [] { NeverServed(Next(s, es[0]), es[1..], t); }
  }

  /** How many snapshots a run builds, and which of them it last saved, read off the events alone. */
  function History(built: Version, saved: Version, es: seq<Event>): (Version, Version)
    decreases |es|
  {
    if es == [] then (built, saved)
    else match es[0]
      case Build(_) => History(built + 1, saved, es[1..])
      case SaveOk(_) => History(built, built, es[1..])
      case _ => History(built, saved, es[1..])
  }

  /** The store is always the last snapshot whose Save succeeded, cold readers or not. */
  lemma {:induction false} StoreIsLastSaved(s: State, es: seq<Event>)
    requires Inv(s) && Runs(s, es) && s.store.Some? && s.store.value.Good?
    ensures Exec(s, es).built == History(s.built, s.store.value.version, es).0
    ensures Exec(s, es).store == Some(Good(History(s.built, s.store.value.version, es).1))
    decreases |es|
  {
    if es != [] {
      InvNext(s, es[0]);
      if es[0].SaveOk? { assert PcOk(s, s.calls[es[0].t]); }
      StoreIsLastSaved(Next(s, es[0]), es[1..]);
    }
  }

  /** Between Build and Publish the cache lags by one version; otherwise it is the last one built. */
  ghost predicate CacheCurrent(s: State) {
    s.cached.Some? && Cold(s) == {} &&
    ((exists t :: t in s.calls && (s.calls[t].Saving? || s.calls[t].Publishing?)) || s.cached == Some(s.built))
  }

  lemma CacheCurrentNext(s: State, e: Event)
    requires Inv(s) && CacheCurrent(s) && Enabled(s, e)
    ensures CacheCurrent(Next(s, e))
  {
    var n := Next(s, e);
    ColdNext(s, e);
    assert e.t in s.calls ==> PcOk(s, s.calls[e.t]);
    if e.Build? || e.SaveOk? || e.SaveFail? {
      assert e.t in n.calls && (n.calls[e.t].Saving? || n.calls[e.t].Publishing?);
    } else if !e.Publish? && s.cached != Some(s.built) {
      var t :| t in s.calls && (s.calls[t].Saving? || s.calls[t].Publishing?);
      assert t != e.t by { assert HoldsLock(s.calls[t]); }
      assert t in n.calls && n.calls[t] == s.calls[t];
    }
  }

  lemma {:induction false} CacheCurrentExec(s: State, es: seq<Event>)
    requires Inv(s) && CacheCurrent(s) && Runs(s, es)
    ensures CacheCurrent(Exec(s, es))
    decreases |es|
  {
    if es != [] {
      InvNext(s, es[0]);
      CacheCurrentNext(s, es[0]);
      CacheCurrentExec(Next(s, es[0]), es[1..]);
    }
  }

  /**
   In every run of a warmed process, whenever refreshMu is free the cache is exactly the last
   snapshot built and the store the last one saved, whatever failed on the way.
   */
  lemma WarmedCacheAndStore(s: State, es: seq<Event>)
    requires Warmed(s) && Runs(s, es) && Exec(s, es).refreshMu.None?
    ensures var (built, saved) := History(s.built, s.built, es);
            Exec(s, es).cached == Some(built) && Exec(s, es).store == Some(Good(saved))
  {
    InvExec(s, es);
    CacheCurrentExec(s, es);
    StoreIsLastSaved(s, es);
    var n := Exec(s, es);
    assert forall t | t in n.calls :: !HoldsLock(n.calls[t]);
  }

  /** The snapshot a refresh is working on, or came back with, is newer than `since`. */
  predicate NewerThan(pc: Pc, since: Version) {
    match pc
    case Saving(v) => v > since
    case Publishing(v, _) => v > since
    case Leaving(o) => (o.NotStored? || o.Stored?) ==> o.version > since
    case Refreshed(o) => (o.NotStored? || o.Stored?) ==> o.version > since
    case _ => true
  }

  lemma NewerThanNext(s: State, e: Event, t: Call, since: Version)
    requires Inv(s) && Enabled(s, e) && since <= s.built
    requires t in s.calls ==> NewerThan(s.calls[t], since)
    ensures t in Next(s, e).calls ==> NewerThan(Next(s, e).calls[t], since)
  {
  }

  /** A refresh is never coalesced: what a call returns was built after the call was made. */
  lemma {:induction false} RefreshReturnsOwnFetch(s: State, es: seq<Event>, t: Call, since: Version)
    requires Inv(s) && Runs(s, es) && since <= s.built
    requires t in s.calls ==> NewerThan(s.calls[t], since)
    ensures t in Exec(s, es).calls ==> NewerThan(Exec(s, es).calls[t], since)
    decreases |es|
  {
    if es != [] {
      InvNext(s, es[0]);
      NewerThanNext(s, es[0], t, since);
      assert Next(s, es[0]).built >= s.built;
      RefreshReturnsOwnFetch(Next(s, es[0]), es[1..], t, since);
    }
  }

  lemma {:induction false} CallsStay(s: State, es: seq<Event>, t: Call)
    requires Runs(s, es) && t in s.calls
    ensures t in Exec(s, es).calls
    decreases |es|
  {
    if es != [] { CallsStay(Next(s, es[0]), es[1..], t); }
  }

  /** The four steps of a Warm that finds something in the store. */
  function WarmEvents(w: Call): seq<Event> {
    [CallCurrent(w), Read(w), Load(w)] + [Fill(w)]
  }

  /**
   From process start to reader: Warm fills the cache, calls come and go, a refresh publishes, more calls come and
   go, and a Current call made after that serves the published version or a later one.
   */
  lemma WarmedRunServesNew(s: State, w: Call, before: seq<Event>, r: Call, between: seq<Event>, t: Call,
                           after: seq<Event>)
    requires Initial(s) && s.store == Some(Good(0))
    requires Runs(s, WarmEvents(w) + (before + [Publish(r)]))
    requires var published := Exec(s, WarmEvents(w) + (before + [Publish(r)]));
      && Runs(published, between + [CallCurrent(t)] + after)
      && t in Exec(published, between + [CallCurrent(t)] + after).calls
      && Exec(published, between + [CallCurrent(t)] + after).calls[t].Served?
    ensures var published := Exec(s, WarmEvents(w) + (before + [Publish(r)]));
      && published.cached.Some?
      && Exec(published, between + [CallCurrent(t)] + after).calls[t].version >= published.cached.value
  {
    WarmFills(s, w);
    var warm := Exec(s, WarmEvents(w));
    ExecAppend(s, WarmEvents(w), before + [Publish(r)]);
    var published := Exec(warm, before + [Publish(r)]);
    CacheCurrentExec(warm, before + [Publish(r)]);
    InvExec(warm, before + [Publish(r)]);
    NotYetCalled(published, between, t, after);
    hide Runs, Exec, Inv, WarmEvents;
    ReadsAreAtLeastAsNew(published, between + [CallCurrent(t)] + after, t);
  }

  lemma NotYetCalled(s: State, between: seq<Event>, t: Call, after: seq<Event>)
    requires Runs(s, between + [CallCurrent(t)] + after)
    ensures t !in s.calls
  {
    ExecAppend(s, between + [CallCurrent(t)], after);
    ExecAppend(s, between, [CallCurrent(t)]);
    assert Enabled(Exec(s, between), CallCurrent(t)) by {
      assert [CallCurrent(t)][0] == CallCurrent(t);
    }
    if t in s.calls { CallsStay(s, between, t); }
  }

  // ---- the outcome of a refresh among other calls ----

  /** How far refresh t got since it took the lock in `base`, and what it has done to cache and store by then. */
  ghost predicate Progressed(base: State, s: State, t: Call)
    requires t in s.calls
  {
    var v := base.built + 1;
    match s.calls[t]
    case Fetching => s.built == base.built && s.cached == base.cached && s.store == base.store
    case Saving(w) => w == v && s.cached == base.cached && s.store == base.store
    case Publishing(w, saved) =>
      w == v && s.cached == base.cached && s.store == if saved then Some(Good(v)) else base.store
    case Leaving(outcome) => Decided(base, s, outcome)
    case _ => true
  }

  /** The outcome says what cache and store are: both new, only the cache new, or both as they were. */
  ghost predicate Decided(base: State, s: State, outcome: Outcome) {
    var v := base.built + 1;
    match outcome
    case Stored(w) => w == v && s.cached == Some(v) && s.store == Some(Good(v))
    case NotStored(w) => w == v && s.cached == Some(v) && s.store == base.store
    case FetchFailed => s.cached == base.cached && s.store == base.store
    case EncodeFailed => s.cached == base.cached && s.store == base.store
  }

  lemma ProgressNext(base: State, s: State, e: Event, t: Call)
    requires Inv(s) && Enabled(s, e) && t in s.calls && HoldsLock(s.calls[t]) && Progressed(base, s, t) && !e.Fill?
    ensures var n := Next(s, e);
      t in n.calls && Progressed(base, n, t) && (HoldsLock(n.calls[t]) || n.calls[t].Refreshed?)
  {
    assert s.refreshMu == Some(t);
    assert e.t in s.calls && HoldsLock(s.calls[e.t]) ==> e.t == t;
  }

  lemma {:induction false} RefreshedStays(s: State, es: seq<Event>, t: Call)
    requires Runs(s, es) && t in s.calls && s.calls[t].Refreshed?
    ensures t in Exec(s, es).calls && Exec(s, es).calls[t] == s.calls[t]
    decreases |es|
  {
    if es != [] { RefreshedStays(Next(s, es[0]), es[1..], t); }
  }

  /**
   While a refresh holds refreshMu, and no cold reader writes, nothing but the refresh itself touches
   cache and store, however many calls are made meanwhile: its outcome decides what both hold.
   */
  lemma {:induction false} OutcomeDecides(base: State, s: State, es: seq<Event>, t: Call)
    requires Inv(s) && Runs(s, es) && t in s.calls && HoldsLock(s.calls[t]) && Progressed(base, s, t)
    requires forall i | 0 <= i < |es| :: !es[i].Fill?
    ensures t in Exec(s, es).calls
    ensures HoldsLock(Exec(s, es).calls[t]) ==> Progressed(base, Exec(s, es), t)
    ensures Exec(s, es).calls[t].Leaving? ==> Decided(base, Exec(s, es), Exec(s, es).calls[t].outcome)
    decreases |es|
  {
    if es != [] {
      var n := Next(s, es[0]);
      ProgressNext(base, s, es[0], t);
      InvNext(s, es[0]);
      hide Next, Enabled, Inv, Progressed, Decided;
      if n.calls[t].Refreshed? {
        RefreshedStays(n, es[1..], t);
      } else {
        OutcomeDecides(base, n, es[1..], t);
      }
    }
  }
}
