/**
 The Refresher object of internal/snapshot/refresher.go and the handlers that call it, one call at a
 time. What interleaved calls do is the subject of Protocol.dfy; UninterruptedRefresh and
 UninterruptedCurrent show that a call nobody disturbs does there what the methods do here.
 */
module RefreshService {
  import opened Wrappers
  import opened MemoryStore
  import opened Protocol

  datatype FetchError = Upstream(status: int) | FetchOther

  datatype StoreError = NotFound | Unreachable | Undecodable

  datatype Error = FromFetch(fetch: FetchError) | FromEncode | FromStore(store: StoreError)

  /** What Refresh returns: Go's pair of a snapshot, which may be nil, and an error, which may be nil. */
  datatype Refreshing<+S> = Refreshing(snapshot: Option<S>, error: Option<Error>)

  datatype Codec<!S> = Codec(encode: S -> Option<seq<bv8>>, decode: seq<bv8> -> Option<S>)

  /** How the environment answers one refresh. */
  datatype Weather<+S> = Weather(fetched: Result<S, FetchError>, saveError: Option<StoreError>)

  // ---- what a refresh does to cache and store, over any kind of snapshot ----

  datatype Fate = NotFetched | NotEncoded | NotSaved | Saved

  function AfterRefresh<V, B>(cached: Option<V>, store: Option<B>, snap: V, bytes: B, fate: Fate): (Option<V>,
      Option<B>) {
    match fate
    case NotFetched => (cached, store)
    case NotEncoded => (cached, store)
    case NotSaved => (Some(snap), store)
    case Saved => (Some(snap), Some(bytes))
  }

  function FateOf<S>(codec: Codec<S>, w: Weather<S>): Fate {
    if w.fetched.Err? then NotFetched
    else if codec.encode(w.fetched.value).None? then NotEncoded
    else if w.saveError.Some? then NotSaved
    else Saved
  }

  /** The status handleRefresh answers with. */
  function RefreshCode<S>(r: Refreshing<S>): int {
    if r.error.None? then 200
    else if r.error.value.FromFetch? && r.error.value.fetch.Upstream? then 502
    else if r.snapshot.Some? then 207
    else 502
  }

  function ReturnOf<S>(codec: Codec<S>, w: Weather<S>): Refreshing<S> {
    match FateOf(codec, w)
    case NotFetched => Refreshing(None, Some(FromFetch(w.fetched.error)))
    case NotEncoded => Refreshing(None, Some(FromEncode))
    case NotSaved => Refreshing(Some(w.fetched.value), Some(FromStore(w.saveError.value)))
    case Saved => Refreshing(Some(w.fetched.value), None)
  }

  /**
   The response code tells what happened to cache and store. For a snapshot that was not there before:
   200 exactly when both now hold it, 207 exactly when only the cache does, 502 exactly when neither changed.
   */
  lemma CodeDecides<S>(codec: Codec<S>, w: Weather<S>, cached: Option<S>, store: Option<seq<bv8>>, snap: S,
      bytes: seq<bv8>)
    requires w.fetched.Ok? ==> snap == w.fetched.value
    requires w.fetched.Ok? && codec.encode(snap).Some? ==> codec.encode(snap) == Some(bytes)
    requires cached != Some(snap) && store != Some(bytes)
    ensures var code := RefreshCode(ReturnOf(codec, w));
      var after := AfterRefresh(cached, store, snap, bytes, FateOf(codec, w));
      && (code == 200 <==> after == (Some(snap), Some(bytes)))
      && (code == 207 <==> after == (Some(snap), store))
      && (code == 502 <==> after == (cached, store))
      && code in {200, 207, 502}
  {
  }

  // ---- reads ----

  /** What a read finds when it has to go to the store. */
  function InStore<S>(codec: Codec<S>, store: Option<seq<bv8>>, loadFails: bool): Result<S, StoreError> {
    if loadFails then Err(Unreachable)
    else match store
      case None => Err(NotFound)
      case Some(bytes) =>
        match codec.decode(bytes)
        case None => Err(Undecodable)
        case Some(snap) => Ok(snap)
  }

  function CurrentOf<S>(codec: Codec<S>, cached: Option<S>, store: Option<seq<bv8>>, loadFails: bool)
    : Result<S, StoreError>
  {
    match cached
    case Some(snap) => Ok(snap)
    case None => InStore(codec, store, loadFails)
  }

  /** snapshotOr503: the status a data endpoint answers with. */
  function ReadCode<S>(r: Result<S, StoreError>): int {
    if r == Err(NotFound) then 503
    else if r.Err? then 500
    else 200
  }

  /** handleHealth: waiting for the first refresh is healthy, a store that cannot be read is not. */
  function HealthCode<S>(r: Result<S, StoreError>): int {
    if r == Err(NotFound) then 200
    else if r.Err? then 503
    else 200
  }

  /** Health and data endpoints disagree in one case only: nothing was ever stored. */
  lemma HealthyUnlessBroken<S>(codec: Codec<S>, cached: Option<S>, store: Option<seq<bv8>>, loadFails: bool)
    ensures var r := CurrentOf(codec, cached, store, loadFails);
      && (HealthCode(r) == 503 <==> ReadCode(r) == 500)
      && (HealthCode(r) == 200 && ReadCode(r) != 200 <==> cached.None? && !loadFails && store.None?)
  {
  }

  /** After a 200 or 207 every read serves the refreshed snapshot, whatever the store does then. */
  lemma ServedAfterRefresh<S>(codec: Codec<S>, w: Weather<S>, cached: Option<S>, store: Option<seq<bv8>>,
                              bytes: seq<bv8>, loadFails: bool)
    requires w.fetched.Ok? && RefreshCode(ReturnOf(codec, w)) in {200, 207}
    ensures var (c, s) := AfterRefresh(cached, store, w.fetched.value, bytes, FateOf(codec, w));
      CurrentOf(codec, c, s, loadFails) == Ok(w.fetched.value)
  {
  }

  /**
   A restart after a 200 finds what decoding makes of the encoded snapshot, which need not be the snapshot itself;
   after a 207 it finds whatever was stored before.
   */
  lemma AfterRestart<S>(codec: Codec<S>, w: Weather<S>, cached: Option<S>, store: Option<seq<bv8>>)
    requires w.fetched.Ok? && codec.encode(w.fetched.value).Some?
    ensures var code := RefreshCode(ReturnOf(codec, w));
      var bytes := codec.encode(w.fetched.value).value;
      var (_, s) := AfterRefresh(cached, store, w.fetched.value, bytes, FateOf(codec, w));
      && (code == 200 ==>
            CurrentOf(codec, None, s, false) ==
              match codec.decode(bytes) { case Some(again) => Ok(again) case None => Err(Undecodable) })
      && (code == 207 ==> CurrentOf(codec, None, s, false) == CurrentOf(codec, None, store, false))
  {
  }

  // ---- the object ----

  class Refresher<S(==)> {
    const store: Memory
    const codec: Codec<S>
    var cached: Option<S>

    constructor (store: Memory, codec: Codec<S>)
      ensures this.store == store && this.codec == codec && cached == None
    {
      this.store, this.codec, cached := store, codec, None;
    }

    method SetCached(snap: S)
      modifies this`cached
      ensures cached == Some(snap)
    {
      cached := Some(snap);
    }

    /** One refresh: fetch, encode, save, and publish even when saving failed. */
    method Refresh(w: Weather<S>) returns (r: Refreshing<S>)
      modifies this`cached, store
      ensures r == ReturnOf(codec, w)
      ensures w.fetched.Err? ==> cached == old(cached) && store.Contents() == old(store.Contents())
      ensures w.fetched.Ok? ==>
        (cached, store.Contents())
        == AfterRefresh(old(cached), old(store.Contents()), w.fetched.value,
                        codec.encode(w.fetched.value).GetOr([]), FateOf(codec, w))
    {
      if w.fetched.Err? {
        return Refreshing(None, Some(FromFetch(w.fetched.error)));
      }
      var snap := w.fetched.value;
      var data := codec.encode(snap);
      if data.None? {
        return Refreshing(None, Some(FromEncode));
      }
      if w.saveError.Some? {
        SetCached(snap);
        return Refreshing(Some(snap), Some(FromStore(w.saveError.value)));
      }
      var bytes := new bv8[|data.value|](i requires 0 <= i < |data.value| => data.value[i]);
      assert bytes[..] == data.value;
      store.Save(bytes);
      SetCached(snap);
      return Refreshing(Some(snap), None);
    }

    /** The latest snapshot: the cached one, else what the store holds, which then becomes the cached one. */
    method Current(loadFails: bool) returns (r: Result<S, StoreError>)
      modifies this`cached
      ensures r == CurrentOf(codec, old(cached), store.Contents(), loadFails)
      ensures store.Contents() == old(store.Contents())
      ensures cached == if r.Ok? then Some(r.value) else old(cached)
    {
      if cached.Some? {
        return Ok(cached.value);
      }
      if loadFails { return Err(Unreachable); }
      var data := store.Load();
      if data.None? { return Err(NotFound); }
      var snap := codec.decode(data.value[..]);
      if snap.None? { return Err(Undecodable); }
      SetCached(snap.value);
      return Ok(snap.value);
    }

    /** Fills the cache at start-up when it can; every error only leaves it empty. */
    method Warm(loadFails: bool)
      modifies this`cached
      ensures store.Contents() == old(store.Contents())
      ensures old(cached).None? ==>
        cached == match InStore(codec, store.Contents(), loadFails) { case Ok(snap) => Some(snap) case Err(_) => None }
      ensures old(cached).Some? ==> cached == old(cached)
    {
      var r := Current(loadFails);
    }

    method HandleRefresh(w: Weather<S>) returns (code: int)
      modifies this`cached, store
      ensures code == RefreshCode(ReturnOf(codec, w))
      ensures code == 200 ==>
        w.fetched.Ok? && cached == Some(w.fetched.value) && store.Contents() == codec.encode(w.fetched.value)
      ensures code == 207 ==>
        w.fetched.Ok? && cached == Some(w.fetched.value) && store.Contents() == old(store.Contents())
      ensures code == 502 ==> cached == old(cached) && store.Contents() == old(store.Contents())
      ensures code in {200, 207, 502}
    {
      var r := Refresh(w);
      if r.error.Some? {
        if r.error.value.FromFetch? && r.error.value.fetch.Upstream? {
          return 502;
        }
        if r.snapshot.Some? {
          return 207;
        }
        return 502;
      }
      return 200;
    }

    method HandleHealth(loadFails: bool) returns (code: int)
      modifies this`cached
      ensures code == HealthCode(CurrentOf(codec, old(cached), store.Contents(), loadFails))
      ensures code == 200 || code == 503
      ensures code == 503 <==>
        old(cached).None? &&
        (loadFails || (store.Contents().Some? && codec.decode(store.Contents().value).None?))
      ensures store.Contents() == old(store.Contents())
      ensures old(cached).Some? ==> code == 200 && cached == old(cached)
    {
      var r := Current(loadFails);
      match r
      case Err(NotFound) => return 200;
      case Err(_) => return 503;
      case Ok(_) => return 200;
    }

    method SnapshotOr503(loadFails: bool) returns (code: int, snapshot: Option<S>)
      modifies this`cached
      ensures code == ReadCode(CurrentOf(codec, old(cached), store.Contents(), loadFails))
      ensures code == 503 <==> old(cached).None? && !loadFails && store.Contents().None?
      ensures code == 500 <==>
        old(cached).None? &&
        (loadFails || (store.Contents().Some? && codec.decode(store.Contents().value).None?))
      ensures snapshot.Some? <==> code == 200
      ensures snapshot.Some? ==> cached == snapshot
      ensures store.Contents() == old(store.Contents())
    {
      var r := Current(loadFails);
      match r
      case Err(NotFound) => return 503, None;
      case Err(_) => return 500, None;
      case Ok(snap) => return 200, Some(snap);
    }
  }

  // ---- the same calls in the protocol ----

  function RefreshEvents(t: Call, fate: Fate): seq<Event> {
    match fate
    case NotFetched => [CallRefresh(t), Lock(t), FetchFail(t)] + [Unlock(t)]
    case NotEncoded => [CallRefresh(t), Lock(t), EncodeFail(t)] + [Unlock(t)]
    case NotSaved => [CallRefresh(t), Lock(t), Build(t)] + [SaveFail(t), Publish(t), Unlock(t)]
    case Saved => [CallRefresh(t), Lock(t), Build(t)] + [SaveOk(t), Publish(t), Unlock(t)]
  }

  lemma AloneFailing(s: State, t: Call, e: Event)
    requires s.refreshMu.None? && t !in s.calls && (e == FetchFail(t) || e == EncodeFail(t))
    ensures var es := [CallRefresh(t), Lock(t), e] + [Unlock(t)];
      && Runs(s, es) && Exec(s, es).cached == s.cached && Exec(s, es).store == s.store && Exec(s, es).refreshMu.None?
      && At(Exec(s, es), t, Refreshed(if e.FetchFail? then FetchFailed else EncodeFailed))
  {
    var es := [CallRefresh(t), Lock(t), e];
    Unroll3(s, es);
    Unroll3(Exec(s, es), [Unlock(t)]);
    ExecAppend(s, es, [Unlock(t)]);
  }

  /** What the protocol calls the outcome of each fate. */
  function OutcomeOf(fate: Fate, v: Version): Outcome {
    match fate
    case NotFetched => FetchFailed
    case NotEncoded => EncodeFailed
    case NotSaved => NotStored(v)
    case Saved => Stored(v)
  }

  /** A refresh that runs alone has, in the protocol, the effect of the method, for every fate. */
  lemma UninterruptedRefresh(s: State, t: Call, fate: Fate)
    requires Inv(s) && s.refreshMu.None? && t !in s.calls
    ensures var es := RefreshEvents(t, fate); var v := s.built + 1;
      && Runs(s, es) && Exec(s, es).refreshMu.None?
      && (Exec(s, es).cached, Exec(s, es).store) == AfterRefresh(s.cached, s.store, v, Good(v), fate)
      && At(Exec(s, es), t, Refreshed(OutcomeOf(fate, v)))
  {
    hide Next, Enabled, Runs, Exec, Inv;
    var a := [CallRefresh(t), Lock(t), Build(t)];
    match fate
    case NotFetched => AloneFailing(s, t, FetchFail(t));
    case NotEncoded => AloneFailing(s, t, EncodeFail(t));
    case NotSaved =>
      UntilBuilt(s, t);
      FromBuilt(Exec(s, a), t, s.built + 1, false);
      ExecAppend(s, a, [SaveFail(t), Publish(t), Unlock(t)]);
    case Saved =>
      UntilBuilt(s, t);
      FromBuilt(Exec(s, a), t, s.built + 1, true);
      ExecAppend(s, a, [SaveOk(t), Publish(t), Unlock(t)]);
  }

  function OutcomeCode(o: Outcome): int {
    match o
    case Stored(_) => 200
    case NotStored(_) => 207
    case FetchFailed => 502
    case EncodeFailed => 502
  }

  /**
   A refresh that runs alone ends, in the protocol, with the code the handler answers with. Its snapshot is always
   a new one, so the code decides the state change with no side condition.
   */
  lemma CodeDecidesInProtocol<S>(s: State, t: Call, codec: Codec<S>, w: Weather<S>)
    requires Inv(s) && s.refreshMu.None? && t !in s.calls
    ensures var es := RefreshEvents(t, FateOf(codec, w));
      var code, v := RefreshCode(ReturnOf(codec, w)), s.built + 1;
      && Runs(s, es)
      && var n := Exec(s, es);
      && t in n.calls && n.calls[t].Refreshed? && OutcomeCode(n.calls[t].outcome) == code
      && (code == 200 <==> n.cached == Some(v) && n.store == Some(Good(v)))
      && (code == 207 <==> n.cached == Some(v) && n.store == s.store)
      && (code == 502 <==> n.cached == s.cached && n.store == s.store)
  {
    hide RefreshEvents, Runs, Exec, Inv;
    UninterruptedRefresh(s, t, FateOf(codec, w));
    NewVersion(s);
  }

  /**
   The same among any number of other calls: while no cold reader writes, the code a refresh is about to
   answer with tells, both ways, what it did to cache and store since it took the lock.
   */
  lemma CodeDecidesAmongOthers(s: State, t: Call, es: seq<Event>)
    requires Inv(s) && At(s, t, Waiting) && s.refreshMu.None?
    requires Runs(s, [Lock(t)] + es) && forall i | 0 <= i < |es| :: !es[i].Fill?
    requires t in Exec(s, [Lock(t)] + es).calls && Exec(s, [Lock(t)] + es).calls[t].Leaving?
    ensures var n := Exec(s, [Lock(t)] + es);
      var code, v := OutcomeCode(n.calls[t].outcome), s.built + 1;
      && (code == 200 <==> n.cached == Some(v) && n.store == Some(Good(v)))
      && (code == 207 <==> n.cached == Some(v) && n.store == s.store)
      && (code == 502 <==> n.cached == s.cached && n.store == s.store)
  {
    hide Next, Enabled, Runs, Exec, Progressed;
    LockTaken(s, t);
    ExecAppend(s, [Lock(t)], es);
    var base := Exec(s, [Lock(t)]);
    OutcomeDecides(base, base, es, t);
    NewVersion(s);
    hide Inv;
  }

  lemma LockTaken(s: State, t: Call)
    requires Inv(s) && At(s, t, Waiting) && s.refreshMu.None?
    ensures Runs(s, [Lock(t)])
    ensures var base := Exec(s, [Lock(t)]);
      && Inv(base) && At(base, t, Fetching) && Progressed(base, base, t)
      && base.cached == s.cached && base.store == s.store && base.built == s.built
  {
    Unroll3(s, [Lock(t)]);
    InvExec(s, [Lock(t)]);
  }

  lemma NewVersion(s: State)
    requires Inv(s)
    ensures s.cached != Some(s.built + 1) && s.store != Some(Good(s.built + 1))
  {
  }

  /**
   A Current call that runs alone: the cached version, else the stored one, which it caches; nothing when the store
   is empty, holds something else or cannot be read.
   */
  lemma UninterruptedCurrent(s: State, t: Call)
    requires Inv(s) && t !in s.calls
    ensures var es := if s.cached.Some? then [CallCurrent(t), Read(t)] else [CallCurrent(t), Read(t), Load(t)];
      && Runs(s, es)
      && (s.cached.Some? ==> Exec(s, es).cached == s.cached && At(Exec(s, es), t, Served(s.cached.value)))
      && (s.cached.None? && s.store.Some? && s.store.value.Good? ==>
            Runs(s, es + [Fill(t)])
            && Exec(s, es + [Fill(t)]).cached == Some(s.store.value.version)
            && At(Exec(s, es + [Fill(t)]), t, Served(s.store.value.version)))
      && (s.cached.None? && (s.store.None? || s.store.value.Corrupt?) ==>
            Exec(s, es).cached == None && At(Exec(s, es), t, Unserved))
      && (s.cached.None? ==>
            var failed := [CallCurrent(t), Read(t), LoadFail(t)];
            Runs(s, failed) && Exec(s, failed).cached == None && At(Exec(s, failed), t, Unserved))
  {
    if s.cached.None? { Unroll3(s, [CallCurrent(t), Read(t), LoadFail(t)]); }
    var es := if s.cached.Some? then [CallCurrent(t), Read(t)] else [CallCurrent(t), Read(t), Load(t)];
    Unroll3(s, es);
    if s.cached.None? && s.store.Some? && s.store.value.Good? {
      Unroll3(Exec(s, es), [Fill(t)]);
      ExecAppend(s, es, [Fill(t)]);
    }
  }
}
