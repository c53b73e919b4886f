/**
 * Properties of the parts of a round (entry, catch-up merge, prune,
 * steady-state events), proved about the functions of module Round.
 */
module StepProperties {
  import opened Resources
  import opened Round

  // ---------------------------------------------------------------- round entry

  /**
   * The registration loop creates an empty entry for each registered
   * kind that has none, keeps every existing entry as it is, and sets
   * dirty exactly when it created an entry.
   */
  lemma {:induction false} EnterKindsStore(st: RoundState, watches: seq<Watch>)
    ensures var r := EnterKinds(st, watches);
      && (forall k | k in r.store :: r.store[k] == if k in st.store then st.store[k] else map[])
      && (r.dirty <==> st.dirty || !(Kinds(watches) <= st.store.Keys))
    decreases |watches|
  {
    if watches != [] {
      EnterKindsStore(st, watches[..|watches| - 1]);
    }
  }

  /**
   * The registration loop gives each registered kind an empty newUids
   * entry and changes nothing but the store, newUids and dirty.
   */
  lemma {:induction false} EnterKindsObserved(st: RoundState, watches: seq<Watch>)
    ensures var r := EnterKinds(st, watches);
      && (forall k | k in r.newUids :: r.newUids[k] == if k in Kinds(watches) then {} else st.newUids[k])
      && r == st.(store := r.store, newUids := r.newUids, dirty := r.dirty)
    decreases |watches|
  {
    if watches != [] {
      EnterKindsObserved(st, watches[..|watches| - 1]);
    }
  }

  /**
   * Round entry (watch.go:99-125): every registered kind has an entry,
   * existing entries and their contents are untouched, newly created
   * entries are empty, exactly the registered kinds are being observed
   * (each with nothing observed yet), and dirty is set iff an entry was
   * created. The callback is not invoked.
   */
  lemma EnterEffect(st: RoundState, watches: seq<Watch>)
    ensures var r := Enter(st, watches);
      && r.store.Keys == st.store.Keys + Kinds(watches)
      && (forall k | k in st.store :: r.store[k] == st.store[k])
      && (forall k | k in r.store && k !in st.store :: r.store[k] == map[])
      && r.newUids == (map k | k in Kinds(watches) :: {})
      && (r.dirty <==> !(Kinds(watches) <= st.store.Keys))
      && r.listCnt == 0 && r.exitCnt == 0 && !r.canceled && r.phase == CatchUp
      && r.callbacks == st.callbacks
  {
    EnterKindsStore(Reset(st), watches);
    EnterKindsObserved(Reset(st), watches);
    var r := Enter(st, watches);
    assert r.newUids == (map k | k in Kinds(watches) :: {});
  }

  // ---------------------------------------------------------------- catch-up merge

  /** The store holds `r`'s uid under `r`'s kind at `r`'s version: merging `r` would change nothing. */
  predicate Holds(store: Store, r: Resource) {
    r.kind in store && r.uid in store[r.kind] && store[r.kind][r.uid].version == r.version
  }

  /** No uid occurs twice among the items of one kind, as in a listing of the API server. */
  predicate UniqueUids(items: seq<Resource>) {
    forall i, j | 0 <= i < j < |items| :: items[i].kind == items[j].kind ==> items[i].uid != items[j].uid
  }

  /** A listing records every listed uid in newUids and adds the listed uids to the store. */
  lemma {:induction false} MergeBatchEffect(st: RoundState, items: seq<Resource>)
    requires Mergeable(st, items)
    ensures var r := MergeBatch(st, items);
      && (forall k | k in st.newUids :: r.newUids[k] == st.newUids[k] + BatchUids(items, k))
      && (forall k | k in st.store :: r.store[k].Keys == st.store[k].Keys + BatchUids(items, k))
    decreases |items|
  {
    if items != [] {
      MergeBatchEffect(st, items[..|items| - 1]);
    }
  }

  /** One item is stored iff its uid is absent or stored with another version. */
  lemma MergeItemGating(st: RoundState, r: Resource)
    requires r.kind in st.store && r.kind in st.newUids
    ensures var m := MergeItem(st, r);
      && r.uid in m.store[r.kind]
      && m.store[r.kind][r.uid] == (if Holds(st.store, r) then st.store[r.kind][r.uid] else r)
      && (m.dirty <==> st.dirty || !Holds(st.store, r))
  {
  }

  /** One item leaves every other record where it is. */
  lemma MergeItemOther(st: RoundState, r: Resource, k: Kind, u: Uid)
    requires r.kind in st.store && r.kind in st.newUids
    requires k in st.store && u in st.store[k] && (k, u) != (r.kind, r.uid)
    ensures u in MergeItem(st, r).store[k] && MergeItem(st, r).store[k][u] == st.store[k][u]
  {
  }

  /** A uid that a listing does not list keeps its record, or its absence. */
  lemma {:induction false} MergeBatchUnlisted(st: RoundState, items: seq<Resource>, k: Kind, u: Uid)
    requires Mergeable(st, items) && k in st.store && u !in BatchUids(items, k)
    ensures u in MergeBatch(st, items).store[k] <==> u in st.store[k]
    ensures u in st.store[k] ==> MergeBatch(st, items).store[k][u] == st.store[k][u]
    decreases |items|
  {
    if items != [] {
      MergeBatchUnlisted(st, items[..|items| - 1], k, u);
    }
  }

  /**
   * Version gating (watch.go:133-137): in a listing without repeated
   * uids, each item is stored iff its uid was absent or stored with a
   * different version; otherwise the stored record stays.
   */
  lemma {:induction false} MergeBatchGating(st: RoundState, items: seq<Resource>)
    requires Mergeable(st, items) && UniqueUids(items)
    ensures var r := MergeBatch(st, items);
      forall i | 0 <= i < |items| ::
        && items[i].uid in r.store[items[i].kind]
        && r.store[items[i].kind][items[i].uid] == if Holds(st.store, items[i]) then st.store[items[i].kind][items[i].uid] else items[i]
    decreases |items|
  {
    if items != [] {
      var init := items[..|items| - 1];
      var last := items[|items| - 1];
      assert Mergeable(st, init) && UniqueUids(init);
      MergeBatchGating(st, init);
      var prev := MergeBatch(st, init);
      UniqueNotListed(init, last);
      MergeBatchUnlisted(st, init, last.kind, last.uid);
      MergeItemGating(prev, last);
      var r := MergeBatch(st, items);
      assert r == MergeItem(prev, last);
      forall i | 0 <= i < |init|
        ensures items[i].uid in r.store[items[i].kind]
        ensures r.store[items[i].kind][items[i].uid] == if Holds(st.store, items[i]) then st.store[items[i].kind][items[i].uid] else items[i]
      {
        assert items[i] == init[i];
        MergeItemOther(prev, last, init[i].kind, init[i].uid);
      }
    }
  }

  /** The store already holds every item of `items` at its version. */
  predicate AllHeld(store: Store, items: seq<Resource>) {
    forall i | 0 <= i < |items| :: Holds(store, items[i])
  }

  /**
   * A listing sets dirty iff some item is absent or at another version.
   * While dirty is unset the store is the one the listing started from,
   * so each item is judged against that store.
   */
  lemma {:induction false} MergeBatchDirty(st: RoundState, items: seq<Resource>)
    requires Mergeable(st, items)
    ensures MergeBatch(st, items).dirty <==> st.dirty || !AllHeld(st.store, items)
    decreases |items|
  {
    if items != [] {
      var init := items[..|items| - 1];
      var last := items[|items| - 1];
      assert Mergeable(st, init);
      MergeBatchDirty(st, init);
      var prev := MergeBatch(st, init);
      MergeItemGating(prev, last);
      AllHeldSnoc(st.store, items);
    }
  }

  /** A listing is held iff all but its last item are, and its last item is. */
  lemma AllHeldSnoc(store: Store, items: seq<Resource>)
    requires items != []
    ensures AllHeld(store, items) <==> AllHeld(store, items[..|items| - 1]) && Holds(store, items[|items| - 1])
  {
    var init := items[..|items| - 1];
    assert forall i | 0 <= i < |init| :: init[i] == items[i];
  }

  /** A uid that does not occur among `items` under kind `r.kind` is not among their listed uids. */
  lemma {:induction false} UniqueNotListed(items: seq<Resource>, r: Resource)
    requires forall i | 0 <= i < |items| :: items[i].kind == r.kind ==> items[i].uid != r.uid
    ensures r.uid !in BatchUids(items, r.kind)
    decreases |items|
  {
    if items != [] {
      UniqueNotListed(items[..|items| - 1], r);
    }
  }

  /**
   * Relisting identical data changes nothing (watch.go:135): when the
   * store already holds every listed item at its version, the store
   * stays as it is and dirty is not set.
   */
  lemma {:induction false} MergeQuiet(st: RoundState, items: seq<Resource>)
    requires Mergeable(st, items) && AllHeld(st.store, items)
    ensures MergeBatch(st, items).store == st.store
    ensures MergeBatch(st, items).dirty == st.dirty
    decreases |items|
  {
    if items != [] {
      MergeQuiet(st, items[..|items| - 1]);
    }
  }

  /** Merging the same listing twice is merging it once. */
  lemma MergeIdempotent(st: RoundState, items: seq<Resource>)
    requires Mergeable(st, items) && UniqueUids(items)
    ensures MergeBatch(MergeBatch(st, items), items) == MergeBatch(st, items)
  {
    var r := MergeBatch(st, items);
    MergeBatchGating(st, items);
    assert AllHeld(r.store, items);
    MergeBatchEffect(st, items);
    MergeQuiet(r, items);
    MergeBatchEffect(r, items);
    var rr := MergeBatch(r, items);
    assert rr.newUids == r.newUids;
  }

  // ---------------------------------------------------------------- prune

  /** Pruning twice is pruning once: a pruned store holds only observed uids. */
  lemma PruneIdempotent(st: RoundState)
    ensures PruneStore(PruneStore(st)) == PruneStore(st)
  {
    var r := PruneStore(st);
    var rr := PruneStore(r);
    forall k | k in r.store
      ensures rr.store[k] == r.store[k]
    {
      assert Kept(r, k) == r.store[k];
    }
    assert rr.store == r.store;
  }

  /** When every stored uid has been observed, the prune changes nothing. */
  lemma PruneQuiet(st: RoundState)
    requires forall k | k in st.store :: st.store[k].Keys <= Observed(st.newUids, k)
    ensures PruneStore(st) == st
  {
    forall k | k in st.store
      ensures Kept(st, k) == st.store[k]
    {
    }
    assert PruneStore(st).store == st.store;
  }

  // ---------------------------------------------------------------- steady state

  /**
   * A Deleted event (watch.go:173-178) removes its uid from its kind and
   * leaves every other uid and every other kind as it is; the callback
   * fires, once and with the new store, iff the uid was present.
   */
  lemma DeletedEffect(st: RoundState, r: Resource)
    requires r.kind in st.store
    ensures var o := ApplyEvent(st, Deleted, r).next;
      && o.store[r.kind].Keys == st.store[r.kind].Keys - {r.uid}
      && (forall u | u in o.store[r.kind] :: o.store[r.kind][u] == st.store[r.kind][u])
      && (forall k | k in st.store && k != r.kind :: o.store[k] == st.store[k])
      && o.callbacks == if r.uid in st.store[r.kind] then st.callbacks + [o.store] else st.callbacks
  {
  }

  /**
   * An Added or Modified event (watch.go:179-184, with the version rule
   * of watch.go:135) leaves the store holding the event's uid at the
   * event's version: the record is replaced, and the callback fires once
   * with the new store, iff the uid was absent or stored with another
   * version; otherwise nothing changes. Every other uid and kind is left
   * as it is.
   */
  lemma UpsertEffect(st: RoundState, t: EventType, r: Resource)
    requires t == Added || t == Modified
    requires r.kind in st.store
    ensures var o := ApplyEvent(st, t, r).next;
      && Holds(o.store, r)
      && o.store[r.kind][r.uid] == (if Holds(st.store, r) then st.store[r.kind][r.uid] else r)
      && o.store[r.kind].Keys == st.store[r.kind].Keys + {r.uid}
      && (forall u | u in st.store[r.kind] && u != r.uid :: o.store[r.kind][u] == st.store[r.kind][u])
      && (forall k | k in st.store && k != r.kind :: o.store[k] == st.store[k])
      && o.callbacks == if Holds(st.store, r) then st.callbacks else st.callbacks + [o.store]
  {
  }

  /** Applying the same event a second time changes nothing and does not notify. */
  lemma EventIdempotent(st: RoundState, t: EventType, r: Resource)
    requires !t.Unknown? && r.kind in st.store
    ensures var o := ApplyEvent(st, t, r).next;
      ApplyEvent(o, t, r) == Continue(o)
  {
    var o := ApplyEvent(st, t, r).next;
    if t == Deleted {
      DeletedEffect(st, r);
    } else {
      UpsertEffect(st, t, r);
    }
  }

  // ---------------------------------------------------------------- keyed stores

  /** A listing keeps every record under its own kind and uid. */
  lemma {:induction false} MergeBatchKeyed(st: RoundState, items: seq<Resource>)
    requires Mergeable(st, items) && WellKeyed(st.store)
    ensures WellKeyed(MergeBatch(st, items).store)
    decreases |items|
  {
    if items != [] {
      MergeBatchKeyed(st, items[..|items| - 1]);
      var prev := MergeBatch(st, items[..|items| - 1]);
      var r := items[|items| - 1];
      assert KeyedEntry(prev.store[r.kind][r.uid := r], r.kind);
    }
  }

  /** Round entry keeps every record under its own kind and uid. */
  lemma EnterKeyed(st: RoundState, watches: seq<Watch>)
    requires WellKeyed(st.store)
    ensures WellKeyed(Enter(st, watches).store)
  {
    EnterEffect(st, watches);
  }

  /** The prune keeps every record under its own kind and uid. */
  lemma PruneKeyed(st: RoundState)
    requires WellKeyed(st.store)
    ensures WellKeyed(PruneStore(st).store)
  {
  }

  /** An event keeps every record under its own kind and uid. */
  lemma EventKeyed(st: RoundState, t: EventType, r: Resource)
    requires WellKeyed(st.store) && r.kind in st.store && !t.Unknown?
    ensures WellKeyed(ApplyEvent(st, t, r).next.store)
  {
    var entry := st.store[r.kind];
    assert KeyedEntry(entry - {r.uid}, r.kind);
    assert KeyedEntry(entry[r.uid := r], r.kind);
  }
}
