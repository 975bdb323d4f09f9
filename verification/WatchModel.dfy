/** The dynamic watch registry as values: its two indexes, the log of everything the outside world
    sees it do, and what each call does to them. The class in WatchRegistry.dfy is proved against
    these functions; the laws of the registry are proved about them in WatchLaws.dfy and WatchRuns.dfy. */
module WatchModel {

  // Strings the registry only compares: a GroupVersionResource, a namespace, an identity, a consumer ID.
  type Name = string

  datatype WatchKey = WatchKey(gvr: Name, namespace: Name, identity: Name)

  type Consumer = Name
  type ContextId = nat
  /** Stands for the three event functions of an EventCallback. */
  type Callback = nat

  datatype WatchRequest = WatchRequest(key: WatchKey, callback: Callback)

  // What the code outside the registry answers when it is called.
  datatype ClientAnswer = Client | NilClient | ClientError | ClientPanic
  datatype InformerAnswer = Informer | NilInformer | InformerError | InformerPanic

  /** The answers the i-th request of a call meets, if it gets as far as asking. */
  datatype Answers = Answers(client: ClientAnswer, informer: InformerAnswer, attaches: bool)

  /** One call's surroundings: the answers by position, and the keys whose RemoveEventHandler fails. */
  datatype World = World(answers: nat -> Answers, stuck: set<WatchKey>)

  /** A consumer's registration on an informer: the serial of its released channel, and its callback. */
  datatype Handler = Handler(channel: nat, callback: Callback)

  datatype Entry = Entry(informer: nat, parent: ContextId, handlers: map<Consumer, Handler>)

  /** What the outside world sees, in order. */
  datatype Event =
    | Asked(key: WatchKey)                    // ClientFor was called for key
    | Acquired(identity: Name)              // ... and returned a client
    | GivenBack(identity: Name)             // Release was called
    | Started(informer: nat, key: WatchKey)
    | Stopped(informer: nat)
    | Attached(channel: nat, key: WatchKey, consumer: Consumer)   // AddEventHandler succeeded
    | Closed(channel: nat)                    // a released channel was closed
    | Detached(channel: nat)                  // RemoveEventHandler was called

  datatype State = State(
    watches: map<WatchKey, Entry>,
    index: map<Consumer, set<WatchKey>>,      // consumerKeys
    releaser: bool,                           // the provider implements ClientReleaser
    cancelled: set<ContextId>,                // parent contexts that are done
    next: nat,                                // serial of the next informer or channel
    log: seq<Event>)

  function Empty(releaser: bool): State {
    State(map[], map[], releaser, {}, 0, [])
  }

  /** The handle EnsureWatchSet returns. */
  datatype Handle = Handle(key: WatchKey, consumer: Consumer, channel: nat, informer: nat, parent: ContextId)

  datatype Error =
    | ClientFailed(key: WatchKey)
    | InformerFailed(key: WatchKey)
    | AttachFailed(key: WatchKey)
    | RemoveFailed(key: WatchKey)

  /** Registered is a non-nil registration slice, with the errors of stale removal; Refused and Cleared are
      nil slices: the call failed, or it released everything. */
  datatype Result =
    | Registered(handles: seq<Handle>, errors: seq<Error>)
    | Refused(errors: seq<Error>)
    | Cleared(errors: seq<Error>)
    | Panicked

  predicate Holds(s: State, k: WatchKey, c: Consumer) {
    k in s.watches && c in s.watches[k].handlers
  }

  function HandleOf(s: State, k: WatchKey, c: Consumer): Handle
    requires Holds(s, k, c)
  {
    var e := s.watches[k];
    Handle(k, c, e.handlers[c].channel, e.informer, e.parent)
  }

  function Log(s: State, events: seq<Event>): State {
    s.(log := s.log + events)
  }

  function GiveBack(s: State, identity: Name): State {
    if s.releaser then Log(s, [GivenBack(identity)]) else s
  }

  // ----- stopping -----

  function StopWatch(s: State, k: WatchKey): State
    requires k in s.watches
  {
    GiveBack(Log(s, [Stopped(s.watches[k].informer)]).(watches := s.watches - {k}), k.identity)
  }

  function Unindex(index: map<Consumer, set<WatchKey>>, c: Consumer, k: WatchKey): map<Consumer, set<WatchKey>> {
    if c !in index then index
    else if index[c] - {k} == {} then index - {c}
    else index[c := index[c] - {k}]
  }

  /** releaseWatchLocked up to the point where it looks whether the watch has handlers left. */
  function DropHandler(s: State, k: WatchKey, c: Consumer): State
    requires Holds(s, k, c)
  {
    var e := s.watches[k];
    var h := e.handlers[c].channel;
    Log(Log(s, [Closed(h)]), [Detached(h)]).(
      watches := s.watches[k := e.(handlers := e.handlers - {c})], index := Unindex(s.index, c, k))
  }

  function ReleaseWatch(s: State, k: WatchKey, c: Consumer): State {
    if !Holds(s, k, c) then s
    else
      var s' := DropHandler(s, k, c);
      if s'.watches[k].handlers == map[] then StopWatch(s', k) else s'
  }

  function ReleaseError(s: State, k: WatchKey, c: Consumer, stuck: set<WatchKey>): seq<Error> {
    if Holds(s, k, c) && k in stuck then [RemoveFailed(k)] else []
  }

  /** The state after releasing the first n of keys, in order. */
  function ReleaseFirst(s: State, c: Consumer, keys: seq<WatchKey>, n: nat): State
    requires n <= |keys|
  {
    if n == 0 then s else ReleaseWatch(ReleaseFirst(s, c, keys, n - 1), keys[n - 1], c)
  }

  function ReleaseErrors(s: State, c: Consumer, keys: seq<WatchKey>, stuck: set<WatchKey>, n: nat): seq<Error>
    requires n <= |keys|
  {
    if n == 0 then []
    else ReleaseErrors(s, c, keys, stuck, n - 1) + ReleaseError(ReleaseFirst(s, c, keys, n - 1), keys[n - 1], c, stuck)
  }

  // ----- starting -----

  datatype StartResult = StartOk(s: State) | StartFailed(s: State, error: Error) | StartPanicked(s: State)

  function StartWatch(s: State, parent: ContextId, k: WatchKey, a: Answers): StartResult {
    var asked := Log(s, [Asked(k)]);
    match a.client
    case ClientPanic => StartPanicked(asked)
    case ClientError => StartFailed(asked, ClientFailed(k))
    case NilClient => StartFailed(asked, ClientFailed(k))
    case Client =>
      var s' := Log(asked, [Acquired(k.identity)]);
      match a.informer
      case InformerPanic => StartPanicked(GiveBack(s', k.identity))
      case InformerError => StartFailed(GiveBack(s', k.identity), InformerFailed(k))
      case NilInformer => StartFailed(GiveBack(s', k.identity), InformerFailed(k))
      case Informer =>
        StartOk(Log(s', [Started(s.next, k)]).(
          watches := s.watches[k := Entry(s.next, parent, map[])], next := s.next + 1))
  }

  /** AddEventHandler succeeded: c gets a handler, with an open channel, on k. */
  function AttachHandler(s: State, k: WatchKey, c: Consumer, callback: Callback): State
    requires k in s.watches
  {
    var e := s.watches[k];
    Log(s, [Attached(s.next, k, c)]).(
      watches := s.watches[k := e.(handlers := e.handlers[c := Handler(s.next, callback)])], next := s.next + 1)
  }

  // ----- EnsureWatchSet -----

  /** How far the loop of EnsureWatchSet has come: the state, the keys it added a handler to, and the
      handles so far; or that it has failed, before the rollback. */
  datatype Phase =
    | Going(s: State, added: seq<WatchKey>, handles: seq<Handle>)
    | Failing(s: State, added: seq<WatchKey>, cause: Error)
    | Panicking(s: State, added: seq<WatchKey>)

  /** The second half of one iteration, once key k is watched. */
  function Attach(s: State, c: Consumer, w: WatchRequest, a: Answers, added: seq<WatchKey>, handles: seq<Handle>): Phase
    requires w.key in s.watches
  {
    if Holds(s, w.key, c) then Going(s, added, handles + [HandleOf(s, w.key, c)])
    else if a.attaches then
      var s' := AttachHandler(s, w.key, c, w.callback);
      Going(s', added + [w.key], handles + [HandleOf(s', w.key, c)])
    else if s.watches[w.key].handlers == map[] then Failing(StopWatch(s, w.key), added, AttachFailed(w.key))
    else Failing(s, added, AttachFailed(w.key))
  }

  function Iterate(p: Phase, parent: ContextId, c: Consumer, w: WatchRequest, a: Answers): Phase
    requires p.Going?
  {
    if w.key in p.s.watches then Attach(p.s, c, w, a, p.added, p.handles)
    else match StartWatch(p.s, parent, w.key, a)
      case StartOk(s') => Attach(s', c, w, a, p.added, p.handles)
      case StartFailed(s', e) => Failing(s', p.added, e)
      case StartPanicked(s') => Panicking(s', p.added)
  }

  /** The loop of EnsureWatchSet after its first n requests. */
  function Progress(s: State, parent: ContextId, c: Consumer, reqs: seq<WatchRequest>, w: World, n: nat): Phase
    requires n <= |reqs|
  {
    if n == 0 then Going(s, [], [])
    else
      var p := Progress(s, parent, c, reqs, w, n - 1);
      if p.Going? then Iterate(p, parent, c, reqs[n - 1], w.answers(n - 1)) else p
  }

  function KeysOf(reqs: seq<WatchRequest>): set<WatchKey> {
    set w | w in reqs :: w.key
  }

  function IndexOf(s: State, c: Consumer): set<WatchKey> {
    if c in s.index then s.index[c] else {}
  }

  /** The keys a call releases once it has succeeded: everything on an empty request, else the stale keys. */
  function Swept(s: State, c: Consumer, reqs: seq<WatchRequest>): set<WatchKey> {
    IndexOf(s, c) - KeysOf(reqs)
  }

  /** order lists the elements of keys, each once: an order in which Go may range over the map. */
  ghost predicate Lists(order: seq<WatchKey>, keys: set<WatchKey>) {
    && (forall i, j | 0 <= i < j < |order| :: order[i] != order[j])
    && (forall k :: k in order <==> k in keys)
  }

  function Release(s: State, c: Consumer, order: seq<WatchKey>, stuck: set<WatchKey>): (State, Result) {
    (ReleaseFirst(s, c, order, |order|), Cleared(ReleaseErrors(s, c, order, stuck, |order|)))
  }

  function Commit(p: Phase, c: Consumer, reqs: seq<WatchRequest>, order: seq<WatchKey>,
                  stuck: set<WatchKey>): (State, Result)
    requires p.Going?
  {
    var s := ReleaseFirst(p.s, c, order, |order|);
    (s.(index := s.index[c := KeysOf(reqs)]), Registered(p.handles, ReleaseErrors(p.s, c, order, stuck, |order|)))
  }

  /** EnsureWatchSet; order is the order in which it ranges over the swept keys. */
  function Ensure(s: State, parent: ContextId, c: Consumer, reqs: seq<WatchRequest>, w: World,
                  order: seq<WatchKey>): (State, Result)
  {
    if reqs == [] then Release(s, c, order, w.stuck)
    else
      var p := Progress(s, parent, c, reqs, w, |reqs|);
      match p
      case Going(_, _, _) => Commit(p, c, reqs, order, w.stuck)
      case Failing(s', added, cause) =>
        (ReleaseFirst(s', c, added, |added|), Refused([cause] + ReleaseErrors(s', c, added, w.stuck, |added|)))
      case Panicking(s', added) => (ReleaseFirst(s', c, added, |added|), Panicked)
  }

  // ----- the log, summed up -----

  /** What a log adds up to: who started what, what was stopped, attached, closed and detached, and how
      many clients of each identity were acquired and given back. */
  datatype Ledger = Ledger(
    started: map<nat, WatchKey>, stopped: set<nat>,
    attached: map<nat, (WatchKey, Consumer)>, closed: set<nat>, detached: set<nat>,
    acquired: multiset<Name>, given: multiset<Name>)

  function Enter(l: Ledger, e: Event): Ledger {
    match e
    case Asked(_) => l
    case Acquired(id) => l.(acquired := l.acquired + multiset{id})
    case GivenBack(id) => l.(given := l.given + multiset{id})
    case Started(i, k) => l.(started := l.started[i := k])
    case Stopped(i) => l.(stopped := l.stopped + {i})
    case Attached(h, k, c) => l.(attached := l.attached[h := (k, c)])
    case Closed(h) => l.(closed := l.closed + {h})
    case Detached(h) => l.(detached := l.detached + {h})
  }

  function Replay(log: seq<Event>): Ledger {
    if log == [] then Ledger(map[], {}, map[], {}, {}, multiset{}, multiset{})
    else Enter(Replay(log[..|log| - 1]), log[|log| - 1])
  }

  // ----- handles -----

  /** GetIndexer: the cache is served unless the released channel or the informer's context is done. */
  predicate Serves(s: State, h: Handle) {
    var l := Replay(s.log);
    h.channel !in l.closed && h.informer !in l.stopped && h.parent !in s.cancelled
  }
}
