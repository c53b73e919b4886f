/**
 * Resources, watch registrations and the messages a round of the
 * WatchingStore receives (watch.go, watch_single.go of k8sutil).
 *
 * A resource type (the Go `reflect.Type` of a resource) is an opaque
 * Kind; a resource is reduced to the metadata the store looks at, its
 * uid and its resourceVersion, plus an opaque body. Versions are
 * compared for equality only.
 */
module Resources {

  type Kind = string
  type Uid = string
  type Version = string

  /** A resource as the store sees it: its kind, its metadata and an opaque payload. */
  datatype Resource = Resource(kind: Kind, uid: Uid, version: Version, body: string)

  /** One registration made with AddWatch: a namespace and the kind of its list type. */
  datatype Watch = Watch(namespace: string, kind: Kind)

  /** The stored resources of one kind, keyed by uid. */
  type Entry = map<Uid, Resource>

  /** The store: kind -> (uid -> resource). */
  type Store = map<Kind, Entry>

  /** The kinds of a list of registrations. */
  function Kinds(watches: seq<Watch>): set<Kind>
    decreases |watches|
  {
    if watches == [] then {}
    else Kinds(watches[..|watches| - 1]) + {watches[|watches| - 1].kind}
  }

  /** Every record of an entry has the entry's kind and sits under its own uid. */
  ghost predicate KeyedEntry(entry: Entry, k: Kind) {
    forall u | u in entry :: entry[u].kind == k && entry[u].uid == u
  }

  /** Every stored record sits under its own kind and its own uid. */
  ghost predicate WellKeyed(store: Store) {
    forall k | k in store :: KeyedEntry(store[k], k)
  }

  /** The event types a watch stream reports; anything else is kept by name. */
  datatype EventType = Added | Modified | Deleted | Unknown(name: string)

  /**
   * A message the coordinator of a round receives: one initial listing
   * (from listCh), one watch event (from watchCh) or one session exit
   * (from exitCh).
   */
  datatype Message =
    | ListBatch(items: seq<Resource>)
    | WatchEvent(eventType: EventType, resource: Resource)
    | Exit

  /** Every resource a message carries has a kind in `ks`. */
  predicate KindsIn(m: Message, ks: set<Kind>) {
    match m
    case ListBatch(items) => forall i | 0 <= i < |items| :: items[i].kind in ks
    case WatchEvent(_, r) => r.kind in ks
    case Exit => true
  }

  /** The uids of kind `k` in one listing. */
  function BatchUids(items: seq<Resource>, k: Kind): set<Uid>
    decreases |items|
  {
    if items == [] then {}
    else
      var last := items[|items| - 1];
      BatchUids(items[..|items| - 1], k) + (if last.kind == k then {last.uid} else {})
  }

  /** The uids of kind `k` in all the listings of a trace. */
  function ListedUids(msgs: seq<Message>, k: Kind): set<Uid>
    decreases |msgs|
  {
    if msgs == [] then {}
    else
      var last := msgs[|msgs| - 1];
      ListedUids(msgs[..|msgs| - 1], k) + (if last.ListBatch? then BatchUids(last.items, k) else {})
  }

  /** The number of listings in a trace. */
  function ListCount(msgs: seq<Message>): nat
    decreases |msgs|
  {
    if msgs == [] then 0
    else ListCount(msgs[..|msgs| - 1]) + (if msgs[|msgs| - 1].ListBatch? then 1 else 0)
  }

  /** The number of session exits in a trace. */
  function ExitCount(msgs: seq<Message>): nat
    decreases |msgs|
  {
    if msgs == [] then 0
    else ExitCount(msgs[..|msgs| - 1]) + (if msgs[|msgs| - 1].Exit? then 1 else 0)
  }

  /** No event of a type outside Added, Modified, Deleted occurs in the trace. */
  predicate KnownEvents(msgs: seq<Message>) {
    forall i | 0 <= i < |msgs| :: !(msgs[i].WatchEvent? && msgs[i].eventType.Unknown?)
  }
}
