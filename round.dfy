/**
 * One round of WatchingStore.run (watch.go:95-196) as a function of the
 * coordinator's state and of the messages it receives.
 *
 * The goroutines and channels of a round are replaced by the sequence
 * of messages the coordinator receives, one at a time. The store
 * persists across rounds; `newUids`, `dirty`, `listCnt`, `exitCnt` and
 * the cancellation of the round's context are the round's own state.
 * Every invocation of the callback is recorded, with the value of the
 * store it is shown, in `callbacks`.
 */
module Round {
  import opened Resources

  /**
   * Where the coordinator is: merging initial listings (watch.go:126-152),
   * applying watch events (watch.go:165-195), returned from run after the
   * last exit, or stopped by the panic of watch.go:186.
   */
  datatype Phase = CatchUp | Steady | Returned | Crashed

  datatype RoundState = RoundState(
    store: Store,
    newUids: map<Kind, set<Uid>>,
    dirty: bool,
    listCnt: nat,
    exitCnt: nat,
    canceled: bool,
    phase: Phase,
    callbacks: seq<Store>)

  /** The uids of kind `k` observed this round; a kind without an entry reads as empty, as a nil Go map does. */
  function Observed(newUids: map<Kind, set<Uid>>, k: Kind): set<Uid> {
    if k in newUids then newUids[k] else {}
  }

  /** The message kinds that the state can take: each has a store entry and a newUids entry. */
  predicate Accepts(st: RoundState, m: Message) {
    KindsIn(m, st.store.Keys) && KindsIn(m, st.newUids.Keys)
  }

  /** w.notify(): the callback sees the current store. */
  function Notify(st: RoundState): (r: RoundState)
    ensures |r.callbacks| == |st.callbacks| + 1 && r.callbacks[..|st.callbacks|] == st.callbacks
    ensures r.callbacks[|st.callbacks|] == r.store == st.store
    ensures r == st.(callbacks := r.callbacks)
  {
    st.(callbacks := st.callbacks + [st.store])
  }

  // ---------------------------------------------------------------- round entry

  /** One registration of the loop of watch.go:118-125: an empty newUids entry, and an empty store entry if there is none. */
  function EnterKind(st: RoundState, k: Kind): (r: RoundState)
    ensures k in r.store && k in r.newUids && r.newUids[k] == {}
    ensures r.store[k] == if k in st.store then st.store[k] else map[]
    ensures r.dirty <==> st.dirty || k !in st.store
  {
    st.(newUids := st.newUids[k := {}],
        store := if k in st.store then st.store else st.store[k := map[]],
        dirty := st.dirty || k !in st.store)
  }

  /** The registration loop of watch.go:118-125 over `watches`. */
  function EnterKinds(st: RoundState, watches: seq<Watch>): (r: RoundState)
    ensures r.store.Keys == st.store.Keys + Kinds(watches)
    ensures r.newUids.Keys == st.newUids.Keys + Kinds(watches)
    ensures r == st.(store := r.store, newUids := r.newUids, dirty := r.dirty)
    decreases |watches|
  {
    if watches == [] then st
    else EnterKind(EnterKinds(st, watches[..|watches| - 1]), watches[|watches| - 1].kind)
  }

  /** EnterKinds over one more registration is one more EnterKind. */
  lemma EnterKindsSnoc(st: RoundState, watches: seq<Watch>, i: nat)
    requires i < |watches|
    ensures EnterKinds(st, watches[..i + 1]) == EnterKind(EnterKinds(st, watches[..i]), watches[i].kind)
  {
    assert watches[..i + 1][..i] == watches[..i];
  }

  /** The round's own state at the start of run (watch.go:99-117): nothing observed, nothing counted. */
  function Reset(st: RoundState): (r: RoundState)
    ensures r.store == st.store && r.callbacks == st.callbacks
    ensures r.newUids == map[] && !r.dirty && !r.canceled
    ensures r.listCnt == 0 && r.exitCnt == 0 && r.phase == CatchUp
  {
    st.(newUids := map[], dirty := false, listCnt := 0, exitCnt := 0, canceled := false, phase := CatchUp)
  }

  /** The start of run (watch.go:99-125): fresh round state, then the registration loop. */
  function Enter(st: RoundState, watches: seq<Watch>): (r: RoundState)
    ensures r.store.Keys == st.store.Keys + Kinds(watches) && r.newUids.Keys == Kinds(watches)
    ensures r.callbacks == st.callbacks && r.phase == CatchUp && r.listCnt == 0 && r.exitCnt == 0 && !r.canceled
  {
    EnterKinds(Reset(st), watches)
  }

  // ---------------------------------------------------------------- catch-up merge

  /** Every item's kind has a store entry and a newUids entry. */
  predicate Mergeable(st: RoundState, items: seq<Resource>) {
    forall i | 0 <= i < |items| :: items[i].kind in st.store && items[i].kind in st.newUids
  }

  /** One item of a listing (watch.go:130-138). */
  function MergeItem(st: RoundState, r: Resource): (m: RoundState)
    requires r.kind in st.store && r.kind in st.newUids
    ensures r.kind in m.store && r.uid in m.store[r.kind] && m.store[r.kind][r.uid].version == r.version
    ensures r.kind in m.newUids && r.uid in m.newUids[r.kind]
    ensures m.dirty <==> st.dirty || m.store != st.store
  {
    var entry := st.store[r.kind];
    var replace := r.uid !in entry || entry[r.uid].version != r.version;
    st.(newUids := st.newUids[r.kind := st.newUids[r.kind] + {r.uid}],
        store := if replace then st.store[r.kind := entry[r.uid := r]] else st.store,
        dirty := st.dirty || replace)
  }

  /**
   * One listing, item by item (watch.go:129-139). It touches only the
   * store, newUids and dirty; it never notifies, and it can change the
   * store only by setting dirty.
   */
  function MergeBatch(st: RoundState, items: seq<Resource>): (r: RoundState)
    requires Mergeable(st, items)
    ensures r.store.Keys == st.store.Keys && r.newUids.Keys == st.newUids.Keys
    ensures r == st.(store := r.store, newUids := r.newUids, dirty := r.dirty)
    ensures st.dirty ==> r.dirty
    ensures !r.dirty ==> r.store == st.store
    decreases |items|
  {
    if items == [] then st
    else MergeItem(MergeBatch(st, items[..|items| - 1]), items[|items| - 1])
  }

  /** MergeBatch over one more item is one more MergeItem. */
  lemma MergeBatchSnoc(st: RoundState, items: seq<Resource>, i: nat)
    requires i < |items| && Mergeable(st, items)
    ensures MergeBatch(st, items[..i + 1]) == MergeItem(MergeBatch(st, items[..i]), items[i])
  {
    assert items[..i + 1][..i] == items[..i];
  }

  // ---------------------------------------------------------------- prune and checkpoint

  /** The records of kind `k` that survive the prune: those observed in this round. */
  function Kept(st: RoundState, k: Kind): (e: Entry)
    requires k in st.store
    ensures e.Keys == st.store[k].Keys * Observed(st.newUids, k)
    ensures forall u | u in e :: e[u] == st.store[k][u]
  {
    map u | u in st.store[k] && u in Observed(st.newUids, k) :: st.store[k][u]
  }

  /** The inner loop of the prune (watch.go:154-159) for kind `k`; a deletion sets dirty. */
  function PruneKind(st: RoundState, k: Kind): (r: RoundState)
    requires k in st.store
    ensures r.store.Keys == st.store.Keys
    ensures r.store[k].Keys == st.store[k].Keys * Observed(st.newUids, k)
    ensures forall u | u in r.store[k] :: r.store[k][u] == st.store[k][u]
    ensures forall j | j in st.store && j != k :: r.store[j] == st.store[j]
    ensures r.dirty <==> st.dirty || r.store[k].Keys != st.store[k].Keys
    ensures r == st.(store := r.store, dirty := r.dirty)
  {
    var kept := Kept(st, k);
    st.(store := st.store[k := kept], dirty := st.dirty || kept != st.store[k])
  }

  /** The prune with the kinds of `done` already visited. */
  function PruneKinds(st: RoundState, done: set<Kind>): (r: RoundState)
    ensures r.store.Keys == st.store.Keys
    ensures forall k | k in st.store :: r.store[k] == if k in done then Kept(st, k) else st.store[k]
    ensures r == st.(store := r.store, dirty := r.dirty)
    ensures r.dirty <==> st.dirty || r.store != st.store
  {
    var pruned := map k | k in st.store :: if k in done then Kept(st, k) else st.store[k];
    st.(store := pruned, dirty := st.dirty || pruned != st.store)
  }

  /** Visiting one more kind is one more PruneKind, whatever the order of the visit. */
  lemma PruneKindsStep(st: RoundState, done: set<Kind>, k: Kind)
    requires k in st.store && k !in done
    ensures PruneKinds(st, done + {k}) == PruneKind(PruneKinds(st, done), k)
  {
    var p := PruneKinds(st, done);
    var q := PruneKinds(st, done + {k});
    assert Kept(p, k) == Kept(st, k);
    assert q.store == p.store[k := Kept(st, k)];
    if q.store == st.store {
      assert p.store == st.store;
    }
  }

  /**
   * The prune of watch.go:153-160: every stored uid not observed in this
   * round is deleted, and any deletion sets dirty. Observed uids keep
   * their record.
   */
  function PruneStore(st: RoundState): (r: RoundState)
    ensures r.store.Keys == st.store.Keys
    ensures forall k | k in st.store :: r.store[k] == Kept(st, k)
    ensures r == st.(store := r.store, dirty := r.dirty)
    ensures r.dirty <==> st.dirty || r.store != st.store
  {
    PruneKinds(st, st.store.Keys)
  }

  /** The checkpoint of watch.go:161-163: one callback if the round changed anything. */
  function Checkpoint(st: RoundState): (r: RoundState)
    ensures r.callbacks == if st.dirty then st.callbacks + [st.store] else st.callbacks
    ensures r == st.(callbacks := r.callbacks)
  {
    if st.dirty then Notify(st) else st
  }

  // ---------------------------------------------------------------- steady state

  /** Applying one watch event either continues the round or panics. */
  datatype Outcome = Continue(next: RoundState) | Panic(reason: string)

  /**
   * One watch event (watch.go:168-187). A Deleted event removes the uid
   * and notifies only if it was present. An Added or Modified event
   * replaces the record and notifies only when the uid is absent or its
   * version differs: the rule of watch.go:135 (see AsWritten for what
   * watch.go:180-181 does with an absent uid). Any other event type is
   * the panic of watch.go:186.
   */
  function ApplyEvent(st: RoundState, t: EventType, r: Resource): (o: Outcome)
    requires r.kind in st.store
    ensures o.Panic? <==> t.Unknown?
    ensures o.Continue? ==> o.next.store.Keys == st.store.Keys
    ensures o.Continue? ==> o.next == st.(store := o.next.store, callbacks := o.next.callbacks)
  {
    var entry := st.store[r.kind];
    match t
    case Deleted =>
      if r.uid in entry then Continue(Notify(st.(store := st.store[r.kind := entry - {r.uid}])))
      else Continue(st)
    case Added | Modified =>
      if r.uid !in entry || entry[r.uid].version != r.version then
        Continue(Notify(st.(store := st.store[r.kind := entry[r.uid := r]])))
      else Continue(st)
    case Unknown(name) => Panic("unexpected watch event type: " + name)
  }

  /** One session exit (watch.go:145-150 and 188-193): cancel; return after the last one. */
  function ReceiveExit(st: RoundState, n: nat): (r: RoundState)
    ensures r.canceled && r.exitCnt == st.exitCnt + 1
    ensures r.phase == if st.exitCnt + 1 == n then Returned else st.phase
    ensures r == st.(canceled := r.canceled, exitCnt := r.exitCnt, phase := r.phase)
  {
    st.(canceled := true, exitCnt := st.exitCnt + 1,
        phase := if st.exitCnt + 1 == n then Returned else st.phase)
  }

  // ---------------------------------------------------------------- the round

  /**
   * The coordinator receiving one message, with `n` watches registered.
   *
   * In the catch-up phase a listing is merged and counted; the listing
   * that makes `listCnt` reach `n` ends the phase with the prune and the
   * checkpoint. This is the phase switch that the doc comment of
   * watch.go:36-38 and the code of watch.go:141-144 intend; the `break`
   * of watch.go:143 leaves only the `select`, so the code as written never
   * switches (see AsWritten).
   *
   * A message whose channel the current phase does not read (a watch
   * event during catch-up, a listing in the steady state) cannot be
   * received there; it leaves the state as it is. Once run has returned
   * or panicked, nothing more is received.
   */
  function Step(st: RoundState, n: nat, m: Message): (r: RoundState)
    requires Accepts(st, m)
    ensures r.store.Keys == st.store.Keys && r.newUids.Keys == st.newUids.Keys
  {
    match st.phase
    case Returned => st
    case Crashed => st
    case CatchUp =>
      (match m
       case ListBatch(items) =>
         var merged := MergeBatch(st, items).(listCnt := st.listCnt + 1);
         if merged.listCnt == n then Checkpoint(PruneStore(merged)).(phase := Steady)
         else merged
       case Exit => ReceiveExit(st, n)
       case WatchEvent(_, _) => st)
    case Steady =>
      (match m
       case WatchEvent(t, r) =>
         (match ApplyEvent(st, t, r)
          case Continue(next) => next
          case Panic(_) => st.(phase := Crashed))
       case Exit => ReceiveExit(st, n)
       case ListBatch(_) => st)
  }

  /** The coordinator receiving a whole trace of messages, in order. */
  function RunTrace(st: RoundState, n: nat, msgs: seq<Message>): (r: RoundState)
    requires forall i | 0 <= i < |msgs| :: Accepts(st, msgs[i])
    ensures r.store.Keys == st.store.Keys && r.newUids.Keys == st.newUids.Keys
    decreases |msgs|
  {
    if msgs == [] then st
    else
      var prev := RunTrace(st, n, msgs[..|msgs| - 1]);
      assert Accepts(st, msgs[|msgs| - 1]);
      Step(prev, n, msgs[|msgs| - 1])
  }

  /** RunTrace over one more message is one more Step. */
  lemma RunTraceSnoc(st: RoundState, n: nat, msgs: seq<Message>, i: nat)
    requires i < |msgs|
    requires forall j | 0 <= j < |msgs| :: Accepts(st, msgs[j])
    ensures Accepts(RunTrace(st, n, msgs[..i]), msgs[i])
    ensures RunTrace(st, n, msgs[..i + 1]) == Step(RunTrace(st, n, msgs[..i]), n, msgs[i])
  {
    assert msgs[..i + 1][..i] == msgs[..i];
  }

  /** The kinds carried by every message of a trace are registered kinds. */
  predicate RegisteredKinds(watches: seq<Watch>, msgs: seq<Message>) {
    forall i | 0 <= i < |msgs| :: KindsIn(msgs[i], Kinds(watches))
  }

  /** One call of run: round entry, then the trace of messages it receives. */
  function RunRound(st: RoundState, watches: seq<Watch>, msgs: seq<Message>): (r: RoundState)
    requires RegisteredKinds(watches, msgs)
    ensures r.store.Keys == st.store.Keys + Kinds(watches)
  {
    var entered := Enter(st, watches);
    assert forall i | 0 <= i < |msgs| :: Accepts(entered, msgs[i]);
    RunTrace(entered, |watches|, msgs)
  }

  // ---------------------------------------------------------------- Run

  /**
   * How Run (watch.go:78-93) stands after the observed rounds: it has
   * returned the context's error before starting round `round`, it
   * panicked in round `round`, or it is still running after `round`
   * completed rounds. Run has no other way to return.
   */
  datatype RunResult = ContextError(round: nat) | Panicked(round: nat) | Running(round: nat)

  /**
   * The loop of Run (watch.go:87-92) from round `i` on, for any round
   * function: `ctxErr[j]` is whether ctx.Err() is non-nil at the check
   * before round j, and `round(st, traces[j])` is what round j leaves
   * behind. The loop goes on only while rounds return.
   */
  function RunLoop(round: (RoundState, seq<Message>) --> RoundState, st: RoundState, ctxErr: seq<bool>, traces: seq<seq<Message>>, i: nat): (res: (RoundState, RunResult))
    requires |ctxErr| == |traces| && i <= |traces|
    requires forall s: RoundState, j | 0 <= j < |traces| :: round.requires(s, traces[j])
    ensures i <= res.1.round <= |traces|
    ensures !res.1.Running? ==> res.1.round < |traces|
    decreases |traces| - i
  {
    if i == |traces| then (st, Running(i))
    else if ctxErr[i] then (st, ContextError(i))
    else
      var r := round(st, traces[i]);
      if r.phase == Returned then RunLoop(round, r, ctxErr, traces, i + 1)
      else if r.phase == Crashed then (r, Panicked(i))
      else (r, Running(i))
  }

  /** w.run as a round function for the registrations `watches`. */
  function RoundOf(watches: seq<Watch>): (RoundState, seq<Message>) --> RoundState {
    (s: RoundState, msgs: seq<Message>) requires RegisteredKinds(watches, msgs) => RunRound(s, watches, msgs)
  }

  /** Run from round `i` on, with the rounds of watch.go:98-196. */
  function RunFrom(st: RoundState, watches: seq<Watch>, ctxErr: seq<bool>, traces: seq<seq<Message>>, i: nat): (res: (RoundState, RunResult))
    requires |ctxErr| == |traces| && i <= |traces|
    requires forall j | 0 <= j < |traces| :: RegisteredKinds(watches, traces[j])
    ensures i <= res.1.round <= |traces|
    ensures !res.1.Running? ==> res.1.round < |traces|
  {
    RunLoop(RoundOf(watches), st, ctxErr, traces, i)
  }
}
