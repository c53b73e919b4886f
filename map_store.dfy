/**
 * The read-only view handed to the callback (mapStore, watch.go:13-30).
 */
module MapStore {
  import opened Resources

  /**
   * mapStore.List: a freshly built slice holding every stored resource
   * of `kind`, one per uid, in an unspecified order (Go's map iteration
   * order); an unknown kind gives an empty slice. `keys[i]` is the uid
   * under which `ret[i]` is stored: `keys` lists every stored uid of
   * `kind` exactly once.
   */
  method List(store: Store, kind: Kind) returns (ret: seq<Resource>, ghost keys: seq<Uid>)
    ensures kind !in store ==> ret == [] && keys == []
    ensures kind in store ==> |keys| == |ret| && (forall i | 0 <= i < |keys| :: keys[i] in store[kind] && ret[i] == store[kind][keys[i]])
    ensures kind in store ==> forall u | u in store[kind] :: u in keys
    ensures forall i, j | 0 <= i < j < |keys| :: keys[i] != keys[j]
    ensures kind in store ==> |ret| == |store[kind]|
    ensures kind in store ==> forall i | 0 <= i < |ret| :: ret[i] in store[kind].Values
    ensures kind in store ==> forall u | u in store[kind] :: store[kind][u] in ret
    ensures WellKeyed(store) ==> forall i | 0 <= i < |ret| :: ret[i].kind == kind && ret[i].uid in store[kind] && store[kind][ret[i].uid] == ret[i]
    ensures WellKeyed(store) ==> forall i, j | 0 <= i < j < |ret| :: ret[i].uid != ret[j].uid
  {
    var entry: Entry := if kind in store then store[kind] else map[];
    ret, keys := Enumerate(entry);
    Enumerated(entry, kind, ret, keys);
  }

  /**
   * The loop of List (watch.go:25-28): each uid of `entry` once, in the
   * order the map hands them out, and its record at the same index.
   */
  method Enumerate(entry: Entry) returns (ret: seq<Resource>, ghost keys: seq<Uid>)
    ensures |keys| == |ret| == |entry|
    ensures forall i | 0 <= i < |keys| :: keys[i] in entry && ret[i] == entry[keys[i]]
    ensures forall u | u in entry :: u in keys
    ensures forall i, j | 0 <= i < j < |keys| :: keys[i] != keys[j]
  {
    ret := [];
    var rest := entry.Keys;
    keys := [];
    // `pos` gives each uid already listed its index in `ret`.
    ghost var pos: map<Uid, nat> := map[];
    while rest != {}
      invariant rest <= entry.Keys && pos.Keys <= entry.Keys
      invariant forall u | u in entry :: u in rest <==> u !in pos
      invariant |keys| == |ret| && |ret| + |rest| == |entry.Keys|
      invariant forall i | 0 <= i < |keys| :: keys[i] in pos && pos[keys[i]] == i && ret[i] == entry[keys[i]]
      invariant forall u | u in pos :: pos[u] < |keys| && keys[pos[u]] == u
      decreases rest
    {
      var u :| u in rest;
      ret := ret + [entry[u]];
      rest := rest - {u};
      pos := pos[u := |keys|];
      keys := keys + [u];
    }
    assert pos.Keys == entry.Keys;
    forall i, j | 0 <= i < j < |keys|
      ensures keys[i] != keys[j]
    {
      assert pos[keys[i]] == i && pos[keys[j]] == j;
    }
    forall u | u in entry
      ensures u in keys
    {
      assert keys[pos[u]] == u;
    }
  }

  /** What Enumerate leaves behind, read as a list of the records of `entry`. */
  lemma Enumerated(entry: Entry, kind: Kind, ret: seq<Resource>, keys: seq<Uid>)
    requires |keys| == |ret| == |entry|
    requires forall i | 0 <= i < |keys| :: keys[i] in entry && ret[i] == entry[keys[i]]
    requires forall u | u in entry :: u in keys
    requires forall i, j | 0 <= i < j < |keys| :: keys[i] != keys[j]
    ensures forall i | 0 <= i < |ret| :: ret[i] in entry.Values
    ensures forall u | u in entry :: entry[u] in ret
    ensures KeyedEntry(entry, kind) ==> forall i | 0 <= i < |ret| :: ret[i].kind == kind && ret[i].uid in entry && entry[ret[i].uid] == ret[i]
    ensures KeyedEntry(entry, kind) ==> forall i, j | 0 <= i < j < |ret| :: ret[i].uid != ret[j].uid
  {
    forall u | u in entry
      ensures entry[u] in ret
    {
      var i :| 0 <= i < |keys| && keys[i] == u;
      assert ret[i] == entry[u];
    }
    assert KeyedEntry(entry, kind) ==> forall i | 0 <= i < |ret| :: ret[i].uid == keys[i];
  }
}
