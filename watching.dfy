/**
 * WatchingStore (watch.go:32-196) as a class whose fields the round
 * updates in place. The locals of run (newUids, dirty, listCnt, exitCnt,
 * the round's cancelable context and where the coordinator is) are
 * fields here, so that each part of the round is a method of its own.
 *
 * Every method is proved against the function of module Round that
 * specifies it: `Model()` after the call is that function of `Model()`
 * before it.
 */
module Watching {
  import opened Resources
  import opened Round
  import RoundProperties

  class WatchingStore {
    var watches: seq<Watch>
    var store: Store

    // The state of the current round (locals of run in watch.go).
    var newUids: map<Kind, set<Uid>>
    var dirty: bool
    var listCnt: nat
    var exitCnt: nat
    var canceled: bool
    var phase: Round.Phase

    /** Every invocation of the callback so far, with the store it was shown. */
    ghost var callbacks: seq<Store>

    ghost function Model(): Round.RoundState
      reads this
    {
      Round.RoundState(store, newUids, dirty, listCnt, exitCnt, canceled, phase, callbacks)
    }

    /** A WatchingStore with no watches and an empty store (watch.go:43-50). */
    constructor ()
      ensures watches == [] && store == map[] && callbacks == []
    {
      watches := [];
      store := map[];
      newUids := map[];
      dirty := false;
      listCnt := 0;
      exitCnt := 0;
      canceled := false;
      phase := Round.CatchUp;
      callbacks := [];
    }

    /** AddWatch (watch.go:70-72): one more registration, the earlier ones kept. */
    method AddWatch(namespace: string, kind: Kind)
      modifies this
      ensures watches == old(watches) + [Watch(namespace, kind)]
      ensures Model() == old(Model())
    {
      watches := watches + [Watch(namespace, kind)];
    }

    /** notify (watch.go:52-54): the callback is invoked with the current store. */
    method Notify()
      modifies this
      ensures Model() == Round.Notify(old(Model())) && watches == old(watches)
    {
      callbacks := callbacks + [store];
    }

    /** Round entry (watch.go:116-125). */
    method EnterRound()
      modifies this
      ensures Model() == Round.Enter(old(Model()), watches) && watches == old(watches)
    {
      ResetRound();
      ghost var reset := Model();
      for i := 0 to |watches|
        invariant watches == old(watches)
        invariant Model() == Round.EnterKinds(reset, watches[..i])
      {
        Round.EnterKindsSnoc(reset, watches, i);
        RegisterKind(watches[i].kind);
      }
      assert watches[..|watches|] == watches;
    }

    /** The round's own state at the start of run (watch.go:99-117). */
    method ResetRound()
      modifies this
      ensures Model() == Round.Reset(old(Model())) && watches == old(watches)
    {
      dirty := false;
      newUids := map[];
      listCnt, exitCnt := 0, 0;
      canceled := false;
      phase := Round.CatchUp;
    }

    /** One pass of the registration loop (watch.go:119-124). */
    method RegisterKind(k: Kind)
      modifies this
      ensures Model() == Round.EnterKind(old(Model()), k) && watches == old(watches)
    {
      newUids := newUids[k := {}];
      if k !in store {
        store := store[k := map[]];
        dirty := true;
      }
    }

    /** Catch-up merge of one listing (watch.go:129-139). */
    method MergeListing(items: seq<Resource>)
      requires Round.Mergeable(Model(), items)
      modifies this
      ensures Model() == Round.MergeBatch(old(Model()), items) && watches == old(watches)
    {
      for i := 0 to |items|
        invariant watches == old(watches)
        invariant Model() == Round.MergeBatch(old(Model()), items[..i])
      {
        Round.MergeBatchSnoc(old(Model()), items, i);
        MergeResource(items[i]);
      }
      assert items[..|items|] == items;
    }

    /** One item of a listing (watch.go:130-138): replaced unless stored with the same version. */
    method MergeResource(r: Resource)
      requires r.kind in store && r.kind in newUids
      modifies this
      ensures Model() == Round.MergeItem(old(Model()), r) && watches == old(watches)
    {
      newUids := newUids[r.kind := newUids[r.kind] + {r.uid}];
      var entry := store[r.kind];
      if r.uid !in entry || entry[r.uid].version != r.version {
        store := store[r.kind := entry[r.uid := r]];
        dirty := true;
      }
    }

    /** Prune of the uids not observed in this round (watch.go:153-160). */
    method Prune()
      modifies this
      ensures Model() == Round.PruneStore(old(Model())) && watches == old(watches)
    {
      ghost var st0 := Model();
      var kinds := store.Keys;
      ghost var done: set<Kind> := {};
      while kinds != {}
        invariant watches == old(watches)
        invariant kinds + done == st0.store.Keys && kinds !! done
        invariant Model() == Round.PruneKinds(st0, done)
        decreases kinds
      {
        var k :| k in kinds;
        Round.PruneKindsStep(st0, done, k);
        PruneKind(k);
        kinds, done := kinds - {k}, done + {k};
      }
    }

    /**
     * The inner loop of the prune (watch.go:154-159) over the uids of one
     * kind. The inner map is deleted from in place in the source; here
     * it is held in `entry` and stored back.
     */
    method PruneKind(k: Kind)
      requires k in store
      modifies this
      ensures Model() == Round.PruneKind(old(Model()), k) && watches == old(watches)
    {
      var entry := store[k];
      var observed := Round.Observed(newUids, k);
      var deleted := false;
      var uids := entry.Keys;
      while uids != {}
        invariant uids <= store[k].Keys
        invariant entry.Keys == store[k].Keys * (uids + observed)
        invariant forall u | u in entry :: entry[u] == store[k][u]
        invariant deleted <==> entry != store[k]
        decreases uids
      {
        var u :| u in uids;
        if u !in observed {
          entry := entry - {u};
          deleted := true;
        }
        uids := uids - {u};
      }
      assert entry == Round.Kept(Model(), k);
      store := store[k := entry];
      dirty := dirty || deleted;
    }

    /** Checkpoint notify (watch.go:161-163). */
    method Checkpoint()
      modifies this
      ensures Model() == Round.Checkpoint(old(Model())) && watches == old(watches)
    {
      if dirty {
        Notify();
      }
    }

    /**
     * Steady-state application of one watch event (watch.go:172-187);
     * `ok` is false where the source panics.
     */
    method ApplyEvent(t: EventType, r: Resource) returns (ok: bool)
      requires r.kind in store
      modifies this
      ensures ok <==> Round.ApplyEvent(old(Model()), t, r).Continue?
      ensures ok ==> Model() == Round.ApplyEvent(old(Model()), t, r).next
      ensures !ok ==> Model() == old(Model())
      ensures watches == old(watches)
    {
      match t
      case Deleted =>
        var existed := r.uid in store[r.kind];
        store := store[r.kind := store[r.kind] - {r.uid}];
        if existed {
          Notify();
        } else {
          assert store[r.kind] == old(store)[r.kind];
        }
        ok := true;
      case Added =>
        ApplyUpsert(r);
        ok := true;
      case Modified =>
        ApplyUpsert(r);
        ok := true;
      case Unknown(_) =>
        ok := false;
    }

    /** The Added/Modified branch of watch.go:179-184, with the version rule of watch.go:135. */
    method ApplyUpsert(r: Resource)
      requires r.kind in store
      modifies this
      ensures Model() == Round.ApplyEvent(old(Model()), Added, r).next
      ensures watches == old(watches)
    {
      var entry := store[r.kind];
      if r.uid !in entry || entry[r.uid].version != r.version {
        store := store[r.kind := entry[r.uid := r]];
        Notify();
      }
    }

    /** One session exit (watch.go:145-150, 188-193). */
    method ReceiveExit()
      modifies this
      ensures Model() == Round.ReceiveExit(old(Model()), |watches|) && watches == old(watches)
    {
      canceled := true;
      exitCnt := exitCnt + 1;
      if exitCnt == |watches| {
        phase := Round.Returned;
      }
    }

    /** The coordinator receiving one message (one pass of the loops at watch.go:126 and 165). */
    method Receive(m: Message)
      requires Round.Accepts(Model(), m)
      modifies this
      ensures Model() == Round.Step(old(Model()), |watches|, m) && watches == old(watches)
    {
      match phase
      case Returned =>
      case Crashed =>
      case CatchUp =>
        match m {
          case ListBatch(items) =>
            MergeListing(items);
            listCnt := listCnt + 1;
            // The intended end of catch-up; the `break` of watch.go:143 leaves only the select.
            if listCnt == |watches| {
              Prune();
              Checkpoint();
              phase := Round.Steady;
            }
          case Exit =>
            ReceiveExit();
          case WatchEvent(_, _) =>
        }
      case Steady =>
        match m {
          case WatchEvent(t, r) =>
            var ok := ApplyEvent(t, r);
            if !ok {
              phase := Round.Crashed;
            }
          case Exit =>
            ReceiveExit();
          case ListBatch(_) =>
        }
    }

    /**
     * run (watch.go:98-196): round entry, then the messages of the round
     * until the last session has exited. `returned` says whether run
     * returned; otherwise it is still waiting or it panicked.
     */
    method RunRound(msgs: seq<Message>) returns (returned: bool)
      requires Round.RegisteredKinds(watches, msgs)
      modifies this
      ensures watches == old(watches)
      ensures Model() == Round.RunRound(old(Model()), watches, msgs)
      ensures returned <==> Model().phase == Round.Returned
    {
      EnterRound();
      ghost var entered := Model();
      var n := |watches|;
      assert forall j | 0 <= j < |msgs| :: Round.Accepts(entered, msgs[j]);
      var i := 0;
      while i < |msgs| && phase != Round.Returned && phase != Round.Crashed
        invariant 0 <= i <= |msgs| && watches == old(watches) && n == |watches|
        invariant Model() == Round.RunTrace(entered, n, msgs[..i])
      {
        Round.RunTraceSnoc(entered, n, msgs, i);
        Receive(msgs[i]);
        i := i + 1;
      }
      if i < |msgs| {
        RoundProperties.StoppedStaysStopped(entered, n, msgs, i);
      } else {
        assert msgs[..i] == msgs;
      }
      returned := phase == Round.Returned;
    }

    /**
     * Run (watch.go:78-93): before each round, the context's error is
     * checked (`ctxErr[i]`); round i receives `traces[i]`.
     */
    method Run(ctxErr: seq<bool>, traces: seq<seq<Message>>) returns (res: Round.RunResult)
      requires |ctxErr| == |traces|
      requires forall j | 0 <= j < |traces| :: Round.RegisteredKinds(watches, traces[j])
      modifies this
      ensures watches == old(watches)
      ensures (Model(), res) == Round.RunFrom(old(Model()), watches, ctxErr, traces, 0)
    {
      var i := 0;
      while true
        invariant i <= |traces|
        invariant watches == old(watches)
        invariant Round.RunFrom(old(Model()), watches, ctxErr, traces, 0) == Round.RunFrom(Model(), watches, ctxErr, traces, i)
        decreases |traces| - i
      {
        if i == |traces| {
          return Round.Running(i);
        }
        if ctxErr[i] {
          return Round.ContextError(i);
        }
        var returned := RunRound(traces[i]);
        if !returned {
          return if phase == Round.Crashed then Round.Panicked(i) else Round.Running(i);
        }
        i := i + 1;
      }
    }
  }
}
