/**
 * Three places where watch.go, as written, does not do what its comments
 * and its own earlier code say it should. Each is modelled here as
 * written, with an input that shows the difference; the rest of the
 * model (module Round) uses the intended behaviour.
 */
module AsWritten {
  import opened Resources
  import opened Round
  import opened RoundProperties

  /** The state of a WatchingStore that has never run (watch.go:43-50, the store starting empty). */
  function Initial(): (st: RoundState)
    ensures st.store == map[] && st.callbacks == [] && !st.dirty
  {
    RoundState(map[], map[], false, 0, 0, false, CatchUp, [])
  }

  // ---------------------------------------------------------------- the break of watch.go:143

  /**
   * One message as watch.go:126-151 handles it: the `break` of line 143
   * leaves only the `select`, so the listing that makes listCnt reach n
   * is merged and counted, and the loop goes on. The prune, the
   * checkpoint and the steady state are never reached; only the return
   * after the last exit leaves the loop.
   */
  function StepAsWritten(st: RoundState, n: nat, m: Message): (r: RoundState)
    requires Accepts(st, m)
    ensures r.store.Keys == st.store.Keys && r.newUids.Keys == st.newUids.Keys
  {
    if st.phase != CatchUp then Step(st, n, m)
    else
      match m
      case ListBatch(items) => MergeBatch(st, items).(listCnt := st.listCnt + 1)
      case Exit => ReceiveExit(st, n)
      case WatchEvent(_, _) => st
  }

  /** A trace of messages as watch.go receives them. */
  function RunTraceAsWritten(st: RoundState, n: nat, msgs: seq<Message>): (r: RoundState)
    requires forall i | 0 <= i < |msgs| :: Accepts(st, msgs[i])
    ensures r.store.Keys == st.store.Keys && r.newUids.Keys == st.newUids.Keys
    decreases |msgs|
  {
    if msgs == [] then st
    else
      var prev := RunTraceAsWritten(st, n, msgs[..|msgs| - 1]);
      assert Accepts(st, msgs[|msgs| - 1]);
      StepAsWritten(prev, n, msgs[|msgs| - 1])
  }

  /** One call of run as written. */
  function RunRoundAsWritten(st: RoundState, watches: seq<Watch>, msgs: seq<Message>): (r: RoundState)
    requires RegisteredKinds(watches, msgs)
    ensures r.store.Keys == st.store.Keys + Kinds(watches)
  {
    var entered := Enter(st, watches);
    assert forall i | 0 <= i < |msgs| :: Accepts(entered, msgs[i]);
    RunTraceAsWritten(entered, |watches|, msgs)
  }

  /**
   * As written, a round never leaves the catch-up loop except by
   * returning, and never invokes the callback, whatever it receives.
   */
  lemma {:induction false} AsWrittenNeverNotifies(e: RoundState, n: nat, msgs: seq<Message>)
    requires e.phase == CatchUp
    requires forall j | 0 <= j < |msgs| :: Accepts(e, msgs[j])
    ensures RunTraceAsWritten(e, n, msgs).phase in {CatchUp, Returned}
    ensures RunTraceAsWritten(e, n, msgs).callbacks == e.callbacks
    decreases |msgs|
  {
    if msgs != [] {
      AsWrittenNeverNotifies(e, n, msgs[..|msgs| - 1]);
      assert Accepts(RunTraceAsWritten(e, n, msgs[..|msgs| - 1]), msgs[|msgs| - 1]);
    }
  }

  /** AsWrittenNeverNotifies for a whole round, from round entry. */
  lemma AsWrittenRoundNeverNotifies(st: RoundState, watches: seq<Watch>, msgs: seq<Message>)
    requires RegisteredKinds(watches, msgs)
    ensures RunRoundAsWritten(st, watches, msgs).callbacks == st.callbacks
  {
    var e := Enter(st, watches);
    StepProperties.EnterEffect(st, watches);
    assert forall j | 0 <= j < |msgs| :: Accepts(e, msgs[j]);
    AsWrittenNeverNotifies(e, |watches|, msgs);
  }

  /** A pod, the only resource of the examples below. */
  function Pod(): Resource {
    Resource("Pod", "uid-1", "1", "")
  }

  /**
   * One watch of pods, a store that has never been filled, and the one
   * listing it receives: the intended round invokes the callback once,
   * with the listed pod; the round as written never does.
   */
  lemma BreakCounterexample()
    ensures var ws := [Watch("default", "Pod")];
      var msgs := [ListBatch([Pod()])];
      && RegisteredKinds(ws, msgs)
      && RunRoundAsWritten(Initial(), ws, msgs).callbacks == []
      && RunRound(Initial(), ws, msgs).callbacks == [map["Pod" := map["uid-1" := Pod()]]]
  {
    var ws := [Watch("default", "Pod")];
    var msgs := [ListBatch([Pod()])];
    assert Kinds(ws) == {"Pod"} by {
      assert ws[..0] == [];
    }
    assert msgs[..0] == [];
    assert [Pod()][..0] == [];
    AsWrittenRoundNeverNotifies(Initial(), ws, msgs);
    var e := Enter(Initial(), ws);
    StepProperties.EnterEffect(Initial(), ws);
    assert e.store == map["Pod" := map[]];
    assert e.newUids == map["Pod" := {}];
    assert MergeBatch(e, [Pod()]) == MergeItem(e, Pod());
    var merged := MergeBatch(e, [Pod()]).(listCnt := 1);
    assert merged.store == map["Pod" := map["uid-1" := Pod()]];
    assert merged.newUids == map["Pod" := {"uid-1"}] by {
      assert {} + {"uid-1"} == {"uid-1"};
    }
    assert PruneStore(merged).store == merged.store by {
      StepProperties.PruneQuiet(merged);
    }
  }

  // ---------------------------------------------------------------- the event branch of watch.go:179-184

  /**
   * A watch event as watch.go:172-187 handles it. Two things differ from
   * the rule of watch.go:135 for an Added or Modified event:
   *
   * - for a uid that is not stored, `oldResource` is the nil interface,
   *   and calling its GetMetadata method panics;
   * - line 181 compares the `ResourceVersion` fields themselves rather
   *   than `GetResourceVersion()`. In the client library these fields are
   *   of type `*string`, so the comparison is of two pointers into two
   *   separately decoded objects, which are never the same pointer. The
   *   record is therefore replaced, and the callback invoked, whatever
   *   the versions.
   */
  function ApplyEventAsWritten(st: RoundState, t: EventType, r: Resource): (o: Outcome)
    requires r.kind in st.store
    ensures o.Panic? <==> t.Unknown? || (!t.Deleted? && r.uid !in st.store[r.kind])
    ensures !t.Deleted? && o.Continue? ==>
      && o.next.store.Keys == st.store.Keys
      && r.uid in o.next.store[r.kind] && o.next.store[r.kind][r.uid] == r
      && o.next.callbacks == st.callbacks + [o.next.store]
  {
    var entry := st.store[r.kind];
    match t
    case Deleted => ApplyEvent(st, t, r)
    case Added | Modified =>
      if r.uid !in entry then Panic("runtime error: invalid memory address or nil pointer dereference")
      else Continue(Notify(st.(store := st.store[r.kind := entry[r.uid := r]])))
    case Unknown(_) => ApplyEvent(st, t, r)
  }

  /**
   * The code as written does what the rule of watch.go:135 does for a
   * Deleted event, for an unknown event type, and for an Added or
   * Modified event that does change a stored record.
   */
  lemma AsWrittenAgreesWhenChanged(st: RoundState, t: EventType, r: Resource)
    requires r.kind in st.store
    requires t.Added? || t.Modified? ==> r.uid in st.store[r.kind] && st.store[r.kind][r.uid].version != r.version
    ensures ApplyEventAsWritten(st, t, r) == ApplyEvent(st, t, r)
  {
  }

  /**
   * An Added event for a pod that is not stored yet (a pod created after
   * the listing): the code as written panics, the intended rule stores
   * the pod and invokes the callback.
   */
  lemma NilRecordCounterexample()
    ensures var st := Initial().(store := map["Pod" := map[]], phase := Steady);
      && ApplyEventAsWritten(st, Added, Pod()).Panic?
      && ApplyEvent(st, Added, Pod()) == Continue(st.(store := map["Pod" := map["uid-1" := Pod()]],
                                                      callbacks := [map["Pod" := map["uid-1" := Pod()]]]))
  {
    var st := Initial().(store := map["Pod" := map[]], phase := Steady);
    assert "uid-1" !in st.store["Pod"];
    var stored := st.(store := st.store["Pod" := st.store["Pod"]["uid-1" := Pod()]]);
    assert stored.store == map["Pod" := map["uid-1" := Pod()]];
    assert ApplyEvent(st, Added, Pod()) == Continue(Notify(stored));
  }

  /**
   * A Modified event that repeats the version already stored (a watch
   * resent after a reconnect, say): the code as written replaces the
   * record and invokes the callback, the intended rule changes nothing.
   */
  lemma SameVersionCounterexample()
    ensures var st := Initial().(store := map["Pod" := map["uid-1" := Pod()]], phase := Steady);
      && ApplyEventAsWritten(st, Modified, Pod()) == Continue(st.(callbacks := [st.store]))
      && ApplyEvent(st, Modified, Pod()) == Continue(st)
  {
    var st := Initial().(store := map["Pod" := map["uid-1" := Pod()]], phase := Steady);
    var entry := st.store["Pod"];
    assert "uid-1" in entry && entry["uid-1"].version == Pod().version;
    assert entry["uid-1" := Pod()] == entry;
    assert st.store["Pod" := entry] == st.store;
    assert ApplyEventAsWritten(st, Modified, Pod()) == Continue(Notify(st.(store := st.store["Pod" := entry["uid-1" := Pod()]])));
    assert Notify(st) == st.(callbacks := [st.store]);
  }
}
