/**
 * Properties of a round of WatchingStore.run and of Run, proved about
 * the functions of module Round: what the catch-up phase keeps, what the
 * store and the callback look like when it ends, how exits end a round,
 * and how Run strings rounds together.
 */
module RoundProperties {
  import opened Resources
  import opened Round
  import opened StepProperties

  /** Once run has returned (or panicked), the messages that follow change nothing. */
  lemma {:induction false} StoppedStaysStopped(st: RoundState, n: nat, msgs: seq<Message>, i: nat)
    requires forall j | 0 <= j < |msgs| :: Accepts(st, msgs[j])
    requires i <= |msgs|
    requires RunTrace(st, n, msgs[..i]).phase in {Returned, Crashed}
    ensures RunTrace(st, n, msgs) == RunTrace(st, n, msgs[..i])
    decreases |msgs| - i
  {
    if i < |msgs| {
      assert msgs[..i + 1][..i] == msgs[..i];
      StoppedStaysStopped(st, n, msgs, i + 1);
    } else {
      assert msgs[..i] == msgs;
    }
  }

  // ---------------------------------------------------------------- catch-up

  /**
   * Only the catch-up phase leads to the catch-up phase, and it stays
   * there only on a listing that is not the n-th, an exit that is not the
   * n-th, or a message it does not read.
   */
  lemma StepInCatchUp(st: RoundState, n: nat, m: Message)
    requires Accepts(st, m)
    requires Step(st, n, m).phase == CatchUp
    ensures st.phase == CatchUp
    ensures m.ListBatch? ==> st.listCnt + 1 != n && Step(st, n, m) == MergeBatch(st, m.items).(listCnt := st.listCnt + 1)
    ensures m.Exit? ==> st.exitCnt + 1 != n && Step(st, n, m) == ReceiveExit(st, n)
    ensures m.WatchEvent? ==> Step(st, n, m) == st
  {
    match st.phase {
      case CatchUp =>
      case Steady =>
      case Returned =>
      case Crashed =>
    }
  }

  /**
   * During catch-up, the round counts the listings and the exits it has
   * received, has cancelled the round's context iff an exit came, and has
   * not invoked the callback.
   */
  lemma {:induction false} CatchUpCounts(e: RoundState, n: nat, msgs: seq<Message>)
    requires e.phase == CatchUp
    requires forall j | 0 <= j < |msgs| :: Accepts(e, msgs[j])
    ensures var r := RunTrace(e, n, msgs);
      r.phase == CatchUp ==>
        && r.listCnt == e.listCnt + ListCount(msgs)
        && r.exitCnt == e.exitCnt + ExitCount(msgs)
        && (r.canceled <==> e.canceled || ExitCount(msgs) > 0)
        && r.callbacks == e.callbacks
    decreases |msgs|
  {
    if msgs != [] {
      var init := msgs[..|msgs| - 1];
      var last := msgs[|msgs| - 1];
      CatchUpCounts(e, n, init);
      var prev := RunTrace(e, n, init);
      assert Accepts(prev, last);
      if RunTrace(e, n, msgs).phase == CatchUp {
        StepInCatchUp(prev, n, last);
      }
    }
  }

  /** During catch-up, newUids holds exactly the uids listed so far. */
  lemma {:induction false} CatchUpObserved(e: RoundState, n: nat, msgs: seq<Message>)
    requires e.phase == CatchUp
    requires forall j | 0 <= j < |msgs| :: Accepts(e, msgs[j])
    ensures var r := RunTrace(e, n, msgs);
      r.phase == CatchUp ==> forall k | k in e.newUids :: r.newUids[k] == e.newUids[k] + ListedUids(msgs, k)
    decreases |msgs|
  {
    if msgs != [] {
      var init := msgs[..|msgs| - 1];
      var last := msgs[|msgs| - 1];
      CatchUpObserved(e, n, init);
      var prev := RunTrace(e, n, init);
      assert Accepts(prev, last);
      if RunTrace(e, n, msgs).phase == CatchUp {
        StepInCatchUp(prev, n, last);
        if last.ListBatch? {
          MergeBatchEffect(prev, last.items);
        }
      }
    }
  }

  /** During catch-up, the store has only gained the uids listed so far: nothing is removed before the prune. */
  lemma {:induction false} CatchUpStored(e: RoundState, n: nat, msgs: seq<Message>)
    requires e.phase == CatchUp
    requires forall j | 0 <= j < |msgs| :: Accepts(e, msgs[j])
    ensures var r := RunTrace(e, n, msgs);
      r.phase == CatchUp ==> forall k | k in e.store :: r.store[k].Keys == e.store[k].Keys + ListedUids(msgs, k)
    decreases |msgs|
  {
    if msgs != [] {
      var init := msgs[..|msgs| - 1];
      var last := msgs[|msgs| - 1];
      CatchUpStored(e, n, init);
      var prev := RunTrace(e, n, init);
      assert Accepts(prev, last);
      if RunTrace(e, n, msgs).phase == CatchUp {
        StepInCatchUp(prev, n, last);
        if last.ListBatch? {
          MergeBatchEffect(prev, last.items);
        }
      }
    }
  }

  /**
   * During catch-up, dirty is never cleared, and the store differs from
   * the one the phase started with only if dirty is set.
   */
  lemma {:induction false} CatchUpDirty(e: RoundState, n: nat, msgs: seq<Message>)
    requires e.phase == CatchUp
    requires forall j | 0 <= j < |msgs| :: Accepts(e, msgs[j])
    ensures var r := RunTrace(e, n, msgs);
      r.phase == CatchUp ==> (e.dirty ==> r.dirty) && (!r.dirty ==> r.store == e.store)
    decreases |msgs|
  {
    if msgs != [] {
      var init := msgs[..|msgs| - 1];
      var last := msgs[|msgs| - 1];
      CatchUpDirty(e, n, init);
      var prev := RunTrace(e, n, init);
      assert Accepts(prev, last);
      if RunTrace(e, n, msgs).phase == CatchUp {
        StepInCatchUp(prev, n, last);
      }
    }
  }

  /**
   * The callback is not invoked before a complete listing for each of the
   * watches has been merged (the promise of watch.go:36-38): while fewer
   * than `n` listings have arrived, the round is catching up or has
   * returned, and the callback has not been invoked. Listings are
   * counted, not attributed to the session that sent them.
   */
  lemma {:induction false} NoCallbackBeforeAllListings(e: RoundState, n: nat, msgs: seq<Message>)
    requires e.phase == CatchUp
    requires forall j | 0 <= j < |msgs| :: Accepts(e, msgs[j])
    requires e.listCnt + ListCount(msgs) < n
    ensures RunTrace(e, n, msgs).phase in {CatchUp, Returned}
    ensures RunTrace(e, n, msgs).callbacks == e.callbacks
    decreases |msgs|
  {
    if msgs != [] {
      var init := msgs[..|msgs| - 1];
      var last := msgs[|msgs| - 1];
      NoCallbackBeforeAllListings(e, n, init);
      CatchUpCounts(e, n, init);
      var prev := RunTrace(e, n, init);
      assert Accepts(prev, last);
    }
  }

  /** A whole round, from round entry: no callback before `|watches|` listings have arrived. */
  lemma NoCallbackInCatchUp(st: RoundState, watches: seq<Watch>, msgs: seq<Message>)
    requires RegisteredKinds(watches, msgs)
    requires ListCount(msgs) < |watches|
    ensures RunRound(st, watches, msgs).callbacks == st.callbacks
  {
    var e := Enter(st, watches);
    EnterEffect(st, watches);
    assert forall j | 0 <= j < |msgs| :: Accepts(e, msgs[j]);
    NoCallbackBeforeAllListings(e, |watches|, msgs);
  }

  // ---------------------------------------------------------------- end of catch-up

  /** Round entry leaves dirty unset only when it leaves the store as it is. */
  lemma EnterQuiet(st: RoundState, watches: seq<Watch>)
    ensures !Enter(st, watches).dirty ==> Enter(st, watches).store == st.store
  {
    EnterEffect(st, watches);
  }

  /**
   * The step that ends the catch-up: the last listing is merged, the
   * store pruned to what has been observed and, if anything changed, the
   * callback invoked once with the pruned store.
   */
  lemma SwitchStep(prev: RoundState, n: nat, items: seq<Resource>)
    requires prev.phase == CatchUp && prev.listCnt + 1 == n
    requires Accepts(prev, ListBatch(items))
    ensures var r := Step(prev, n, ListBatch(items));
      && r.phase == Steady
      && r.store.Keys == prev.store.Keys
      && (forall k | k in prev.store && k in prev.newUids ::
            r.store[k].Keys == (prev.store[k].Keys + BatchUids(items, k)) * (prev.newUids[k] + BatchUids(items, k)))
      && (forall k | k in prev.store && k !in prev.newUids :: r.store[k] == map[])
      && (r.callbacks == prev.callbacks || r.callbacks == prev.callbacks + [r.store])
      && (prev.dirty || r.store != prev.store ==> r.callbacks == prev.callbacks + [r.store])
      && r.callbacks == (if r.dirty then prev.callbacks + [r.store] else prev.callbacks)
      && (prev.dirty || r.store != prev.store ==> r.dirty)
  {
    MergeBatchEffect(prev, items);
  }

  /**
   * A round still catching up, from round entry: it has counted the
   * listings it received and has not invoked the callback.
   */
  lemma CatchUpRoundCounts(st: RoundState, watches: seq<Watch>, msgs: seq<Message>)
    requires RegisteredKinds(watches, msgs)
    requires RunRound(st, watches, msgs).phase == CatchUp
    ensures RunRound(st, watches, msgs).listCnt == ListCount(msgs)
    ensures RunRound(st, watches, msgs).callbacks == st.callbacks
  {
    var e := Enter(st, watches);
    EnterEffect(st, watches);
    assert forall j | 0 <= j < |msgs| :: Accepts(e, msgs[j]);
    CatchUpCounts(e, |watches|, msgs);
  }

  /** A round still catching up, from round entry: it observes exactly the registered kinds and the uids listed so far. */
  lemma CatchUpRoundObserved(st: RoundState, watches: seq<Watch>, msgs: seq<Message>)
    requires RegisteredKinds(watches, msgs)
    requires RunRound(st, watches, msgs).phase == CatchUp
    ensures var r := RunRound(st, watches, msgs);
      && r.newUids.Keys == Kinds(watches)
      && (forall k | k in Kinds(watches) :: r.newUids[k] == ListedUids(msgs, k))
  {
    var e := Enter(st, watches);
    EnterEffect(st, watches);
    assert forall j | 0 <= j < |msgs| :: Accepts(e, msgs[j]);
    CatchUpObserved(e, |watches|, msgs);
  }

  /**
   * A round still catching up, from round entry: the store has an entry
   * for every registered kind and has only gained the listed uids.
   */
  lemma CatchUpRoundStored(st: RoundState, watches: seq<Watch>, msgs: seq<Message>)
    requires RegisteredKinds(watches, msgs)
    requires RunRound(st, watches, msgs).phase == CatchUp
    ensures var r := RunRound(st, watches, msgs);
      && r.store.Keys == st.store.Keys + Kinds(watches)
      && (forall k | k in r.store :: ListedUids(msgs, k) <= r.store[k].Keys)
  {
    var e := Enter(st, watches);
    EnterEffect(st, watches);
    assert forall j | 0 <= j < |msgs| :: Accepts(e, msgs[j]);
    CatchUpStored(e, |watches|, msgs);
  }

  /**
   * A round still catching up, from round entry: the store differs from
   * the one the round began with only if dirty is set.
   */
  lemma CatchUpRoundDirty(st: RoundState, watches: seq<Watch>, msgs: seq<Message>)
    requires RegisteredKinds(watches, msgs)
    requires RunRound(st, watches, msgs).phase == CatchUp
    ensures var r := RunRound(st, watches, msgs);
      && (!r.dirty ==> r.store == st.store)
      && (Enter(st, watches).dirty ==> r.dirty)
  {
    var e := Enter(st, watches);
    EnterEffect(st, watches);
    EnterQuiet(st, watches);
    assert forall j | 0 <= j < |msgs| :: Accepts(e, msgs[j]);
    CatchUpDirty(e, |watches|, msgs);
  }

  /**
   * The listing that completes the catch-up (the `|watches|`-th) ends
   * it with the prune (watch.go:141-160): the round enters the steady
   * state, the store holds an entry for every registered kind, and the
   * entries of stored kinds outside `watches` are emptied.
   */
  lemma CatchUpEndKinds(st: RoundState, watches: seq<Watch>, msgs: seq<Message>)
    requires |msgs| > 0 && RegisteredKinds(watches, msgs)
    requires RunRound(st, watches, msgs[..|msgs| - 1]).phase == CatchUp
    requires msgs[|msgs| - 1].ListBatch? && ListCount(msgs) == |watches|
    ensures var r := RunRound(st, watches, msgs);
      && r.phase == Steady
      && r.store.Keys == st.store.Keys + Kinds(watches)
      && (forall k | k in r.store && k !in Kinds(watches) :: r.store[k] == map[])
  {
    var init := msgs[..|msgs| - 1];
    CatchUpRoundCounts(st, watches, init);
    CatchUpRoundObserved(st, watches, init);
    CatchUpRoundStored(st, watches, init);
    SwitchStep(RunRound(st, watches, init), |watches|, msgs[|msgs| - 1].items);
    RunRoundSnoc(st, watches, msgs);
  }

  /**
   * Deletion by omission: at the end of the catch-up, the store holds,
   * for each registered kind, exactly the uids listed in this round.
   */
  lemma CatchUpEndListed(st: RoundState, watches: seq<Watch>, msgs: seq<Message>)
    requires |msgs| > 0 && RegisteredKinds(watches, msgs)
    requires RunRound(st, watches, msgs[..|msgs| - 1]).phase == CatchUp
    requires msgs[|msgs| - 1].ListBatch? && ListCount(msgs) == |watches|
    ensures var r := RunRound(st, watches, msgs);
      forall k | k in Kinds(watches) :: k in r.store && r.store[k].Keys == ListedUids(msgs, k)
  {
    forall k | k in Kinds(watches)
      ensures var r := RunRound(st, watches, msgs);
        k in r.store && r.store[k].Keys == ListedUids(msgs, k)
    {
      CatchUpEndListedKind(st, watches, msgs, k);
    }
  }

  /** CatchUpEndListed for one registered kind. */
  lemma CatchUpEndListedKind(st: RoundState, watches: seq<Watch>, msgs: seq<Message>, k: Kind)
    requires |msgs| > 0 && RegisteredKinds(watches, msgs)
    requires RunRound(st, watches, msgs[..|msgs| - 1]).phase == CatchUp
    requires msgs[|msgs| - 1].ListBatch? && ListCount(msgs) == |watches|
    requires k in Kinds(watches)
    ensures var r := RunRound(st, watches, msgs);
      k in r.store && r.store[k].Keys == ListedUids(msgs, k)
  {
    var init := msgs[..|msgs| - 1];
    var items := msgs[|msgs| - 1].items;
    var prev := RunRound(st, watches, init);
    CatchUpRoundCounts(st, watches, init);
    CatchUpRoundObserved(st, watches, init);
    CatchUpRoundStored(st, watches, init);
    SwitchStep(prev, |watches|, items);
    RunRoundSnoc(st, watches, msgs);
    assert ListedUids(msgs, k) == ListedUids(init, k) + BatchUids(items, k);
    PrunedToListed(prev.store[k].Keys, ListedUids(init, k), BatchUids(items, k));
  }

  /** A kind's uids after the prune: what was stored or listed, restricted to what was listed. */
  lemma PrunedToListed(stored: set<Uid>, listed: set<Uid>, batch: set<Uid>)
    requires listed <= stored
    ensures (stored + batch) * (listed + batch) == listed + batch
  {
  }

  /**
   * Coalesced notification at the end of the catch-up (watch.go:161-163):
   * since the round began, the callback has been invoked at most once,
   * with the store as it is at the end of the catch-up, and it has been
   * invoked if that store differs from the store the round began with.
   */
  lemma CatchUpEndCallback(st: RoundState, watches: seq<Watch>, msgs: seq<Message>)
    requires |msgs| > 0 && RegisteredKinds(watches, msgs)
    requires RunRound(st, watches, msgs[..|msgs| - 1]).phase == CatchUp
    requires msgs[|msgs| - 1].ListBatch? && ListCount(msgs) == |watches|
    ensures var r := RunRound(st, watches, msgs);
      && (r.callbacks == st.callbacks || r.callbacks == st.callbacks + [r.store])
      && (r.store != st.store ==> r.callbacks == st.callbacks + [r.store])
  {
    var init := msgs[..|msgs| - 1];
    var prev := RunRound(st, watches, init);
    CatchUpRoundCounts(st, watches, init);
    CatchUpRoundDirty(st, watches, init);
    SwitchStep(prev, |watches|, msgs[|msgs| - 1].items);
    RunRoundSnoc(st, watches, msgs);
  }

  /**
   * The checkpoint fires exactly on dirty (watch.go:161-163): at the end
   * of the catch-up the callback has been invoked, once, iff dirty is set.
   * Dirty, once set during the catch-up, stays set, and the last listing
   * and the prune set it if they change the store. (CatchUpRoundDirty:
   * an entry created at round entry sets it; MergeItem: so does every
   * stored item, even one that a later item undoes.)
   */
  lemma CatchUpEndDirty(st: RoundState, watches: seq<Watch>, msgs: seq<Message>)
    requires |msgs| > 0 && RegisteredKinds(watches, msgs)
    requires RunRound(st, watches, msgs[..|msgs| - 1]).phase == CatchUp
    requires msgs[|msgs| - 1].ListBatch? && ListCount(msgs) == |watches|
    ensures var r := RunRound(st, watches, msgs);
      var prev := RunRound(st, watches, msgs[..|msgs| - 1]);
      && r.callbacks == (if r.dirty then st.callbacks + [r.store] else st.callbacks)
      && (prev.dirty || r.store != prev.store ==> r.dirty)
  {
    var init := msgs[..|msgs| - 1];
    var prev := RunRound(st, watches, init);
    CatchUpRoundCounts(st, watches, init);
    SwitchStep(prev, |watches|, msgs[|msgs| - 1].items);
    RunRoundSnoc(st, watches, msgs);
  }

  // ---------------------------------------------------------------- idempotent relist

  /** Every listing of the trace lists only items the store holds at their version. */
  predicate ListingsHeld(store: Store, msgs: seq<Message>) {
    forall i | 0 <= i < |msgs| && msgs[i].ListBatch? :: AllHeld(store, msgs[i].items)
  }

  /** During catch-up, listings of what the store already holds change nothing and do not set dirty. */
  lemma {:induction false} CatchUpQuiet(e: RoundState, n: nat, msgs: seq<Message>)
    requires e.phase == CatchUp && !e.dirty
    requires forall j | 0 <= j < |msgs| :: Accepts(e, msgs[j])
    requires ListingsHeld(e.store, msgs)
    ensures var r := RunTrace(e, n, msgs);
      r.phase == CatchUp ==> r.store == e.store && !r.dirty
    decreases |msgs|
  {
    if msgs != [] {
      var init := msgs[..|msgs| - 1];
      var last := msgs[|msgs| - 1];
      assert ListingsHeld(e.store, init);
      CatchUpQuiet(e, n, init);
      var prev := RunTrace(e, n, init);
      assert Accepts(prev, last);
      if RunTrace(e, n, msgs).phase == CatchUp {
        StepInCatchUp(prev, n, last);
        if last.ListBatch? {
          MergeQuiet(prev, last.items);
        }
      }
    }
  }

  /**
   * The step that ends a quiet catch-up: if the last listing lists only
   * what the store holds, dirty is unset and every stored uid has been
   * observed, the store is left as it is and the callback is not invoked.
   */
  lemma QuietSwitch(prev: RoundState, n: nat, items: seq<Resource>)
    requires prev.phase == CatchUp && prev.listCnt + 1 == n && !prev.dirty
    requires Accepts(prev, ListBatch(items)) && AllHeld(prev.store, items)
    requires forall k | k in prev.store :: prev.store[k].Keys <= Observed(prev.newUids, k) + BatchUids(items, k)
    ensures Step(prev, n, ListBatch(items)).store == prev.store
    ensures Step(prev, n, ListBatch(items)).callbacks == prev.callbacks
  {
    MergeQuiet(prev, items);
    var merged := MergeBatch(prev, items).(listCnt := prev.listCnt + 1);
    MergeObservesAll(prev, items);
    PruneQuiet(merged);
  }

  /** After the last listing, every stored uid has been observed. */
  lemma MergeObservesAll(prev: RoundState, items: seq<Resource>)
    requires Mergeable(prev, items)
    requires forall k | k in prev.store :: prev.store[k].Keys <= Observed(prev.newUids, k) + BatchUids(items, k)
    requires MergeBatch(prev, items).store == prev.store
    ensures var merged := MergeBatch(prev, items);
      forall k | k in merged.store :: merged.store[k].Keys <= Observed(merged.newUids, k)
  {
    MergeBatchEffect(prev, items);
    forall k | k in prev.store && k !in prev.newUids {
      UnlistedKind(items, k);
    }
  }

  /** A kind that no item has is not among the listed uids. */
  lemma {:induction false} UnlistedKind(items: seq<Resource>, k: Kind)
    requires forall i | 0 <= i < |items| :: items[i].kind != k
    ensures BatchUids(items, k) == {}
    decreases |items|
  {
    if items != [] {
      UnlistedKind(items[..|items| - 1], k);
    }
  }

  /** A kind that is not registered has no listed uids in a trace of registered kinds. */
  lemma {:induction false} UnregisteredUnlisted(watches: seq<Watch>, msgs: seq<Message>, k: Kind)
    requires RegisteredKinds(watches, msgs) && k !in Kinds(watches)
    ensures ListedUids(msgs, k) == {}
    decreases |msgs|
  {
    if msgs != [] {
      UnregisteredUnlisted(watches, msgs[..|msgs| - 1], k);
      var last := msgs[|msgs| - 1];
      if last.ListBatch? {
        UnlistedKind(last.items, k);
      }
    }
  }

  /** A round still catching up, whose listings list only what the store holds, has changed nothing. */
  lemma QuietCatchUpRound(st: RoundState, watches: seq<Watch>, msgs: seq<Message>)
    requires RegisteredKinds(watches, msgs)
    requires RunRound(st, watches, msgs).phase == CatchUp
    requires Kinds(watches) <= st.store.Keys
    requires ListingsHeld(st.store, msgs)
    ensures RunRound(st, watches, msgs).store == st.store && !RunRound(st, watches, msgs).dirty
  {
    var e := Enter(st, watches);
    EnterEffect(st, watches);
    EnterQuiet(st, watches);
    assert forall j | 0 <= j < |msgs| :: Accepts(e, msgs[j]);
    CatchUpQuiet(e, |watches|, msgs);
  }

  /**
   * Idempotent relist: a round whose listings list exactly what the store
   * holds, at the versions it holds them, for kinds that all have an
   * entry already, ends its catch-up with the store as it was and without
   * invoking the callback.
   */
  lemma QuietRelist(st: RoundState, watches: seq<Watch>, msgs: seq<Message>)
    requires |msgs| > 0 && RegisteredKinds(watches, msgs)
    requires RunRound(st, watches, msgs[..|msgs| - 1]).phase == CatchUp
    requires msgs[|msgs| - 1].ListBatch? && ListCount(msgs) == |watches|
    requires Kinds(watches) <= st.store.Keys
    requires ListingsHeld(st.store, msgs)
    requires forall k | k in st.store :: st.store[k].Keys <= ListedUids(msgs, k)
    ensures RunRound(st, watches, msgs).store == st.store
    ensures RunRound(st, watches, msgs).callbacks == st.callbacks
  {
    var prev := RunRound(st, watches, msgs[..|msgs| - 1]);
    var items := msgs[|msgs| - 1].items;
    assert msgs[|msgs| - 1] == ListBatch(items);
    QuietBeforeSwitch(st, watches, msgs);
    RunRoundSnoc(st, watches, msgs);
    QuietSwitch(prev, |watches|, items);
  }

  /** QuietRelist before its last listing: the state meets what QuietSwitch asks for. */
  lemma QuietBeforeSwitch(st: RoundState, watches: seq<Watch>, msgs: seq<Message>)
    requires |msgs| > 0 && RegisteredKinds(watches, msgs)
    requires RunRound(st, watches, msgs[..|msgs| - 1]).phase == CatchUp
    requires msgs[|msgs| - 1].ListBatch? && ListCount(msgs) == |watches|
    requires Kinds(watches) <= st.store.Keys
    requires ListingsHeld(st.store, msgs)
    requires forall k | k in st.store :: st.store[k].Keys <= ListedUids(msgs, k)
    ensures var prev := RunRound(st, watches, msgs[..|msgs| - 1]);
      var items := msgs[|msgs| - 1].items;
      && prev.listCnt + 1 == |watches| && !prev.dirty
      && prev.store == st.store && prev.callbacks == st.callbacks
      && AllHeld(prev.store, items)
      && (forall k | k in prev.store :: prev.store[k].Keys <= Observed(prev.newUids, k) + BatchUids(items, k))
  {
    var init := msgs[..|msgs| - 1];
    assert ListingsHeld(st.store, init);
    QuietCatchUpRound(st, watches, init);
    CatchUpRoundCounts(st, watches, init);
    RelistObservesStored(st, watches, msgs);
    assert ListCount(msgs) == ListCount(init) + 1;
  }

  /**
   * When the listings of a round list every stored uid, the uids stored
   * before its last listing have all been observed, or are listed by it.
   */
  lemma RelistObservesStored(st: RoundState, watches: seq<Watch>, msgs: seq<Message>)
    requires |msgs| > 0 && RegisteredKinds(watches, msgs)
    requires RunRound(st, watches, msgs[..|msgs| - 1]).phase == CatchUp
    requires msgs[|msgs| - 1].ListBatch?
    requires Kinds(watches) <= st.store.Keys
    requires forall k | k in st.store :: st.store[k].Keys <= ListedUids(msgs, k)
    requires RunRound(st, watches, msgs[..|msgs| - 1]).store == st.store
    ensures var prev := RunRound(st, watches, msgs[..|msgs| - 1]);
      forall k | k in prev.store ::
        prev.store[k].Keys <= Observed(prev.newUids, k) + BatchUids(msgs[|msgs| - 1].items, k)
  {
    var init := msgs[..|msgs| - 1];
    var items := msgs[|msgs| - 1].items;
    var prev := RunRound(st, watches, init);
    CatchUpRoundObserved(st, watches, init);
    forall k | k in prev.store
      ensures prev.store[k].Keys <= Observed(prev.newUids, k) + BatchUids(items, k)
    {
      assert ListedUids(msgs, k) == ListedUids(init, k) + BatchUids(items, k);
      if k !in Kinds(watches) {
        UnregisteredUnlisted(watches, init, k);
      }
    }
  }

  /** A round over one more message is one more Step. */
  lemma RunRoundSnoc(st: RoundState, watches: seq<Watch>, msgs: seq<Message>)
    requires |msgs| > 0 && RegisteredKinds(watches, msgs)
    ensures Accepts(RunRound(st, watches, msgs[..|msgs| - 1]), msgs[|msgs| - 1])
    ensures RunRound(st, watches, msgs) == Step(RunRound(st, watches, msgs[..|msgs| - 1]), |watches|, msgs[|msgs| - 1])
  {
    var e := Enter(st, watches);
    assert forall j | 0 <= j < |msgs| :: Accepts(e, msgs[j]);
  }

  // ---------------------------------------------------------------- callbacks

  /** Each message causes at most one callback, which shows the store as it is after the message. */
  lemma StepNotifiesOnce(st: RoundState, n: nat, m: Message)
    requires Accepts(st, m)
    ensures var r := Step(st, n, m);
      r.callbacks == st.callbacks || r.callbacks == st.callbacks + [r.store]
  {
  }

  /** Each message keeps every record under its own kind and uid. */
  lemma StepKeyed(st: RoundState, n: nat, m: Message)
    requires Accepts(st, m) && WellKeyed(st.store)
    ensures WellKeyed(Step(st, n, m).store)
  {
    match m
    case ListBatch(items) => ListingKeyed(st, n, items);
    case WatchEvent(t, r) => WatchEventKeyed(st, n, t, r);
    case Exit =>
  }

  /** StepKeyed for a listing: the merge and the prune keep records keyed. */
  lemma ListingKeyed(st: RoundState, n: nat, items: seq<Resource>)
    requires Accepts(st, ListBatch(items)) && WellKeyed(st.store)
    ensures WellKeyed(Step(st, n, ListBatch(items)).store)
  {
    if st.phase == CatchUp {
      MergeBatchKeyed(st, items);
      if st.listCnt + 1 == n {
        SwitchKeyed(st, n, items);
      }
    }
  }

  /** The listing that ends the catch-up keeps records keyed. */
  lemma SwitchKeyed(st: RoundState, n: nat, items: seq<Resource>)
    requires Accepts(st, ListBatch(items)) && st.phase == CatchUp && st.listCnt + 1 == n
    requires WellKeyed(MergeBatch(st, items).store)
    ensures WellKeyed(Step(st, n, ListBatch(items)).store)
  {
    PruneKeyed(MergeBatch(st, items).(listCnt := n));
  }

  /** StepKeyed for a watch event. */
  lemma WatchEventKeyed(st: RoundState, n: nat, t: EventType, r: Resource)
    requires Accepts(st, WatchEvent(t, r)) && WellKeyed(st.store)
    ensures WellKeyed(Step(st, n, WatchEvent(t, r)).store)
  {
    if !t.Unknown? {
      EventKeyed(st, t, r);
    }
  }

  /**
   * Over a round, the callback log only grows, and every store the
   * callback is shown, like the store itself, keeps each record under
   * its own kind and uid (so each List of it is the one mapStore.List
   * specifies for a keyed store).
   */
  lemma {:induction false} TraceKeyed(st: RoundState, n: nat, msgs: seq<Message>)
    requires forall j | 0 <= j < |msgs| :: Accepts(st, msgs[j])
    requires WellKeyed(st.store)
    ensures var r := RunTrace(st, n, msgs);
      && WellKeyed(r.store)
      && |st.callbacks| <= |r.callbacks| && r.callbacks[..|st.callbacks|] == st.callbacks
      && (forall i | |st.callbacks| <= i < |r.callbacks| :: WellKeyed(r.callbacks[i]))
    decreases |msgs|
  {
    if msgs != [] {
      var init := msgs[..|msgs| - 1];
      TraceKeyed(st, n, init);
      var prev := RunTrace(st, n, init);
      assert Accepts(prev, msgs[|msgs| - 1]);
      StepNotifiesOnce(prev, n, msgs[|msgs| - 1]);
      StepKeyed(prev, n, msgs[|msgs| - 1]);
      var r := RunTrace(st, n, msgs);
      if r.callbacks != prev.callbacks {
        assert r.callbacks[..|prev.callbacks|] == prev.callbacks;
      }
    }
  }

  /** TraceKeyed for a whole round, from round entry. */
  lemma RoundKeyed(st: RoundState, watches: seq<Watch>, msgs: seq<Message>)
    requires RegisteredKinds(watches, msgs) && WellKeyed(st.store)
    ensures var r := RunRound(st, watches, msgs);
      && WellKeyed(r.store)
      && |st.callbacks| <= |r.callbacks| && r.callbacks[..|st.callbacks|] == st.callbacks
      && (forall i | |st.callbacks| <= i < |r.callbacks| :: WellKeyed(r.callbacks[i]))
  {
    var e := Enter(st, watches);
    EnterEffect(st, watches);
    EnterKeyed(st, watches);
    assert forall j | 0 <= j < |msgs| :: Accepts(e, msgs[j]);
    TraceKeyed(e, |watches|, msgs);
  }

  // ---------------------------------------------------------------- exits

  /**
   * One message, in a round that has neither returned nor panicked: an
   * exit is counted and cancels the round, and the round returns on the
   * `n`-th; no other message of a known type changes the count, cancels
   * the round, makes it return or panic.
   */
  lemma StepCountsExits(st: RoundState, n: nat, m: Message)
    requires st.phase == CatchUp || st.phase == Steady
    requires Accepts(st, m)
    requires !(m.WatchEvent? && m.eventType.Unknown?)
    ensures var r := Step(st, n, m);
      && r.phase != Crashed
      && r.exitCnt == st.exitCnt + (if m.Exit? then 1 else 0)
      && (r.canceled <==> st.canceled || m.Exit?)
      && (r.phase == Returned <==> m.Exit? && st.exitCnt + 1 == n)
  {
    if m.ListBatch? && st.phase == CatchUp {
      var merged := MergeBatch(st, m.items).(listCnt := st.listCnt + 1);
      assert merged.exitCnt == st.exitCnt && merged.canceled == st.canceled;
    }
  }

  /**
   * Waiting for all exits (watch.go:145-150, 188-193): over a trace of
   * known event types with at most `n` exits in all, the round has
   * counted every exit, has cancelled its context iff an exit came, has
   * not panicked, and has returned iff the `n`-th exit came.
   */
  lemma {:induction false} ExitCounting(e: RoundState, n: nat, msgs: seq<Message>)
    requires e.phase == CatchUp || e.phase == Steady
    requires forall j | 0 <= j < |msgs| :: Accepts(e, msgs[j])
    requires KnownEvents(msgs)
    requires e.exitCnt < n && e.exitCnt + ExitCount(msgs) <= n
    ensures var r := RunTrace(e, n, msgs);
      && r.phase != Crashed
      && r.exitCnt == e.exitCnt + ExitCount(msgs)
      && (r.canceled <==> e.canceled || ExitCount(msgs) > 0)
      && (r.phase == Returned <==> e.exitCnt + ExitCount(msgs) == n)
    decreases |msgs|
  {
    if msgs != [] {
      var init := msgs[..|msgs| - 1];
      var last := msgs[|msgs| - 1];
      assert KnownEvents(init);
      ExitCounting(e, n, init);
      var prev := RunTrace(e, n, init);
      assert Accepts(prev, last);
      if prev.phase != Returned {
        StepCountsExits(prev, n, last);
      }
    }
  }

  /**
   * A whole round, from round entry: with `|watches|` > 0 and at most one
   * exit per watch, the round returns exactly when every watch's session
   * has exited, and the first exit cancels it.
   */
  lemma RoundExits(st: RoundState, watches: seq<Watch>, msgs: seq<Message>)
    requires |watches| > 0 && RegisteredKinds(watches, msgs)
    requires KnownEvents(msgs) && ExitCount(msgs) <= |watches|
    ensures var r := RunRound(st, watches, msgs);
      && r.phase != Crashed
      && r.exitCnt == ExitCount(msgs)
      && (r.canceled <==> ExitCount(msgs) > 0)
      && (r.phase == Returned <==> ExitCount(msgs) == |watches|)
  {
    var e := Enter(st, watches);
    EnterEffect(st, watches);
    assert forall j | 0 <= j < |msgs| :: Accepts(e, msgs[j]);
    ExitCounting(e, |watches|, msgs);
  }

  // ---------------------------------------------------------------- Run

  /**
   * Run's loop checks the context before every round (watch.go:87-90):
   * every round it started was preceded by a check that found no error.
   */
  lemma {:induction false} LoopChecksContext(round: (RoundState, seq<Message>) --> RoundState, st: RoundState, ctxErr: seq<bool>, traces: seq<seq<Message>>, i: nat)
    requires |ctxErr| == |traces| && i <= |traces|
    requires forall s: RoundState, j | 0 <= j < |traces| :: round.requires(s, traces[j])
    ensures var res := RunLoop(round, st, ctxErr, traces, i).1;
      forall j | i <= j < res.round :: !ctxErr[j]
    decreases |traces| - i
  {
    if i < |traces| && !ctxErr[i] {
      var r := round(st, traces[i]);
      if r.phase == Returned {
        LoopChecksContext(round, r, ctxErr, traces, i + 1);
      }
    }
  }

  /**
   * Run's loop returns only the context's error (watch.go:88-89): it
   * stops with ContextError(j) exactly when the check before round j
   * finds one; a round that panics or never returns was started after a
   * check that found none.
   */
  lemma {:induction false} LoopStopsOnContextError(round: (RoundState, seq<Message>) --> RoundState, st: RoundState, ctxErr: seq<bool>, traces: seq<seq<Message>>, i: nat)
    requires |ctxErr| == |traces| && i <= |traces|
    requires forall s: RoundState, j | 0 <= j < |traces| :: round.requires(s, traces[j])
    ensures var res := RunLoop(round, st, ctxErr, traces, i).1;
      res.round < |traces| ==> (res.ContextError? <==> ctxErr[res.round])
    decreases |traces| - i
  {
    if i < |traces| && !ctxErr[i] {
      var r := round(st, traces[i]);
      if r.phase == Returned {
        LoopStopsOnContextError(round, r, ctxErr, traces, i + 1);
      }
    }
  }

  /**
   * Run (watch.go:78-93) returns only the context's error: it stops with
   * ContextError(j) exactly when the check before round j finds one, and
   * every round it started was preceded by a check that found none.
   */
  lemma RunChecksContext(st: RoundState, watches: seq<Watch>, ctxErr: seq<bool>, traces: seq<seq<Message>>)
    requires |ctxErr| == |traces|
    requires forall j | 0 <= j < |traces| :: RegisteredKinds(watches, traces[j])
    ensures var res := RunFrom(st, watches, ctxErr, traces, 0).1;
      && (forall j | 0 <= j < res.round :: !ctxErr[j])
      && (res.round < |traces| ==> (res.ContextError? <==> ctxErr[res.round]))
  {
    LoopChecksContext(RoundOf(watches), st, ctxErr, traces, 0);
    LoopStopsOnContextError(RoundOf(watches), st, ctxErr, traces, 0);
  }

  /**
   * Run keeps starting rounds (watch.go:86-93): while the context has no
   * error and every round's sessions all exit, Run runs every round and
   * is still running after the last.
   */
  lemma {:induction false} RunKeepsRunning(st: RoundState, watches: seq<Watch>, ctxErr: seq<bool>, traces: seq<seq<Message>>, i: nat)
    requires |watches| > 0
    requires |ctxErr| == |traces| && i <= |traces|
    requires forall j | 0 <= j < |traces| :: RegisteredKinds(watches, traces[j])
    requires forall j | i <= j < |traces| :: !ctxErr[j] && KnownEvents(traces[j]) && ExitCount(traces[j]) == |watches|
    ensures RunFrom(st, watches, ctxErr, traces, i).1 == Running(|traces|)
    decreases |traces| - i
  {
    if i < |traces| {
      RoundExits(st, watches, traces[i]);
      RunKeepsRunning(RunRound(st, watches, traces[i]), watches, ctxErr, traces, i + 1);
    }
  }
}
