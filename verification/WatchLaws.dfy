/** What the registry's state always satisfies, in the middle of a call (Core) and between calls (Inv),
    and that every step of a call keeps it. */
module WatchLaws {
  import opened WatchModel

  // ----- the log as a protocol -----

  /** Key k has no running informer. */
  predicate Idle(l: Ledger, k: WatchKey) {
    forall i | i in l.started && l.started[i] == k :: i in l.stopped
  }

  /** What may happen next: a client is asked for, and an informer started, only for a key that has no
      running informer; nothing is given back that is not outstanding; only a running informer is stopped;
      a channel is closed once, after its handler was attached, and its handler detached once, after that. */
  predicate Allowed(l: Ledger, e: Event) {
    match e
    case Asked(k) => Idle(l, k)
    case Acquired(id) => true
    case GivenBack(id) => l.given[id] < l.acquired[id]
    case Started(i, k) => Idle(l, k) && i !in l.started
    case Stopped(i) => i in l.started && i !in l.stopped
    case Attached(h, _, _) => h !in l.attached
    case Closed(h) => h in l.attached && h !in l.closed
    case Detached(h) => h in l.closed && h !in l.detached
  }

  /** The whole log was allowed, event by event. */
  predicate Lawful(log: seq<Event>) {
    log == [] ||
    (var past := log[..|log| - 1]; Lawful(past) && Allowed(Replay(past), log[|log| - 1]))
  }

  lemma Append(log: seq<Event>, e: Event)
    ensures Replay(log + [e]) == Enter(Replay(log), e)
    ensures Lawful(log + [e]) <==> Lawful(log) && Allowed(Replay(log), e)
  {
    assert (log + [e])[..|log|] == log;
  }

  lemma AskedLog(log: seq<Event>, k: WatchKey)
    requires Lawful(log) && Idle(Replay(log), k)
    ensures Lawful(log + [Asked(k)]) && Replay(log + [Asked(k)]) == Replay(log)
  {
    Append(log, Asked(k));
  }

  lemma AcquiredLog(log: seq<Event>, k: WatchKey)
    requires Lawful(log) && Idle(Replay(log), k)
    ensures var log' := log + [Asked(k)] + [Acquired(k.identity)]; var l := Replay(log);
      Lawful(log') && Replay(log') == l.(acquired := l.acquired + multiset{k.identity})
  {
    AskedLog(log, k);
    Append(log + [Asked(k)], Acquired(k.identity));
  }

  lemma StartedLog(log: seq<Event>, k: WatchKey, i: nat)
    requires Lawful(log) && Idle(Replay(log), k) && i !in Replay(log).started
    ensures var log' := log + [Asked(k)] + [Acquired(k.identity)] + [Started(i, k)]; var l := Replay(log);
      Lawful(log') && Replay(log') == l.(acquired := l.acquired + multiset{k.identity}, started := l.started[i := k])
  {
    AcquiredLog(log, k);
    Append(log + [Asked(k)] + [Acquired(k.identity)], Started(i, k));
  }

  lemma ClosedLog(log: seq<Event>, h: nat)
    requires Lawful(log) && h in Replay(log).attached && h !in Replay(log).closed && h !in Replay(log).detached
    ensures var log' := log + [Closed(h)] + [Detached(h)]; var l := Replay(log);
      Lawful(log') && Replay(log') == l.(closed := l.closed + {h}, detached := l.detached + {h})
  {
    Append(log, Closed(h));
    Append(log + [Closed(h)], Detached(h));
  }

  // ----- invariants -----

  function Watched(s: State, identity: Name): set<WatchKey> {
    set k | k in s.watches && k.identity == identity
  }

  function ChannelOf(s: State, k: WatchKey, c: Consumer): nat
    requires Holds(s, k, c)
  {
    s.watches[k].handlers[c].channel
  }

  /** The informers started and not stopped are exactly those of the watched keys, one each. */
  predicate InformersTracked(s: State, l: Ledger) {
    && (forall k | k in s.watches ::
          var i := s.watches[k].informer; i in l.started && l.started[i] == k && i !in l.stopped)
    && l.stopped <= l.started.Keys
    && (forall i | i in l.started :: i < s.next &&
          (i in l.stopped || (l.started[i] in s.watches && s.watches[l.started[i]].informer == i)))
  }

  /** The handlers attached and not closed are exactly those the entries hold, one channel each. */
  ghost predicate ChannelsTracked(s: State, l: Ledger) {
    && (forall k, c | Holds(s, k, c) ::
          var h := ChannelOf(s, k, c); h in l.attached && l.attached[h] == (k, c) && h !in l.closed)
    && (forall h | h in l.attached :: h < s.next &&
          (h in l.closed
           || (Holds(s, l.attached[h].0, l.attached[h].1) && ChannelOf(s, l.attached[h].0, l.attached[h].1) == h)))
    && l.detached == l.closed <= l.attached.Keys
  }

  /** One outstanding client per watched key of each identity. */
  ghost predicate ClientsBalanced(s: State, l: Ledger) {
    forall id ::
      if s.releaser then l.acquired[id] as int - l.given[id] as int == |Watched(s, id)| else l.given[id] == 0
  }

  ghost predicate Core(s: State) {
    var l := Replay(s.log);
    Lawful(s.log) && InformersTracked(s, l) && ChannelsTracked(s, l) && ClientsBalanced(s, l)
  }

  /** Every entry has a handler, no consumer maps to an empty set, and the two indexes agree. */
  ghost predicate Indexed(s: State) {
    && (forall k | k in s.watches :: s.watches[k].handlers != map[])
    && (forall c | c in s.index :: s.index[c] != {})
    && (forall k, c :: k in IndexOf(s, c) <==> Holds(s, k, c))
  }

  ghost predicate Inv(s: State) {
    Core(s) && Indexed(s)
  }

  lemma EmptyInv(releaser: bool)
    ensures Inv(Empty(releaser))
  {
    var s := Empty(releaser);
    forall id ensures Watched(s, id) == {} {
    }
  }

  // ----- every step keeps Core -----

  /** s' differs from s in the log only, and the log was not added to with informers or channels. */
  lemma SameBooks(s: State, s': State, l: Ledger, l': Ledger)
    requires InformersTracked(s, l) && ChannelsTracked(s, l)
    requires s'.watches == s.watches && s'.next == s.next
    requires l' == l.(acquired := l'.acquired, given := l'.given)
    ensures InformersTracked(s', l') && ChannelsTracked(s', l')
  {
    assert forall k, c :: Holds(s', k, c) <==> Holds(s, k, c);
    assert forall k, c | Holds(s, k, c) :: ChannelOf(s', k, c) == ChannelOf(s, k, c);
  }

  /** Clients that come are given back at once, and no other. */
  lemma SameClients(s: State, s': State, l: Ledger, l': Ledger, back: multiset<Name>)
    requires ClientsBalanced(s, l)
    requires s'.watches.Keys == s.watches.Keys && s'.releaser == s.releaser
    requires l'.acquired == l.acquired + back && l'.given == if s.releaser then l.given + back else l.given
    ensures ClientsBalanced(s', l')
  {
    assert forall id :: Watched(s', id) == Watched(s, id);
  }

  /** ClientFor failed or panicked. */
  lemma AskedKeepsCore(s: State, k: WatchKey)
    requires Core(s) && k !in s.watches
    ensures Core(Log(s, [Asked(k)]))
  {
    Append(s.log, Asked(k));
    var l := Replay(s.log);
    SameBooks(s, Log(s, [Asked(k)]), l, l);
    SameClients(s, Log(s, [Asked(k)]), l, l, multiset{});
  }

  /** The InformerFunc failed or panicked: the client is given back. */
  lemma GivenBackKeepsCore(s: State, k: WatchKey)
    requires Core(s) && k !in s.watches
    ensures Core(GiveBack(Log(Log(s, [Asked(k)]), [Acquired(k.identity)]), k.identity))
  {
    var id := k.identity;
    var s2 := Log(Log(s, [Asked(k)]), [Acquired(id)]);
    var s' := GiveBack(s2, id);
    var l, l' := Replay(s.log), Replay(s'.log);
    AcquiredLog(s.log, k);
    Append(s2.log, GivenBack(id));
    SameBooks(s, s', l, l');
    SameClients(s, s', l, l', multiset{id});
  }

  lemma OneMoreWatched(s: State, s': State, k: WatchKey, entry: Entry, id: Name)
    requires k !in s.watches && s'.watches == s.watches[k := entry]
    ensures |Watched(s', id)| == |Watched(s, id)| + if id == k.identity then 1 else 0
  {
    assert Watched(s', id) == if id == k.identity then Watched(s, id) + {k} else Watched(s, id);
  }

  lemma OneMoreWatch(s: State, s': State, k: WatchKey, entry: Entry, l: Ledger)
    requires ClientsBalanced(s, l)
    requires k !in s.watches && s'.watches == s.watches[k := entry] && s'.releaser == s.releaser
    ensures ClientsBalanced(s', l.(acquired := l.acquired + multiset{k.identity}))
  {
    forall id ensures |Watched(s', id)| == |Watched(s, id)| + if id == k.identity then 1 else 0 {
      OneMoreWatched(s, s', k, entry, id);
    }
  }

  lemma OneMoreInformer(s: State, s': State, k: WatchKey, entry: Entry, l: Ledger, l': Ledger)
    requires InformersTracked(s, l) && k !in s.watches && entry.informer == s.next
    requires s'.watches == s.watches[k := entry] && s'.next == s.next + 1
    requires l'.started == l.started[s.next := k] && l'.stopped == l.stopped && s.next !in l.stopped
    ensures InformersTracked(s', l')
  {
  }

  lemma SameChannels(s: State, s': State, l: Ledger, l': Ledger)
    requires ChannelsTracked(s, l) && s.next <= s'.next
    requires forall k, c :: Holds(s', k, c) <==> Holds(s, k, c)
    requires forall k, c | Holds(s, k, c) :: ChannelOf(s', k, c) == ChannelOf(s, k, c)
    requires l'.attached == l.attached && l'.closed == l.closed && l'.detached == l.detached
    ensures ChannelsTracked(s', l')
  {
  }

  lemma StartedKeepsCore(s: State, s2: State, s': State, k: WatchKey, entry: Entry)
    requires Core(s) && k !in s.watches && entry.informer == s.next && entry.handlers == map[]
    requires s2.log == s.log + [Asked(k)] + [Acquired(k.identity)] && s'.log == s2.log + [Started(s.next, k)]
    requires s'.watches == s.watches[k := entry] && s'.next == s.next + 1 && s'.releaser == s.releaser
    ensures Core(s')
  {
    var l, l' := Replay(s.log), Replay(s'.log);
    StartedLog(s.log, k, s.next);
    assert InformersTracked(s', l') by { OneMoreInformer(s, s', k, entry, l, l'); }
    assert ChannelsTracked(s', l') by { SameChannels(s, s', l, l'); }
    assert ClientsBalanced(s', l') by { OneMoreWatch(s, s', k, entry, l); }
  }

  lemma StartKeepsCore(s: State, parent: ContextId, k: WatchKey, a: Answers)
    requires Core(s) && k !in s.watches
    ensures Core(StartWatch(s, parent, k, a).s)
  {
    var r := StartWatch(s, parent, k, a);
    if !a.client.Client? {
      AskedKeepsCore(s, k);
    } else if !a.informer.Informer? {
      GivenBackKeepsCore(s, k);
    } else {
      StartedKeepsCore(s, Log(Log(s, [Asked(k)]), [Acquired(k.identity)]), r.s, k, Entry(s.next, parent, map[]));
    }
  }

  /** Steps that change handlers only. */
  lemma SameInformers(s: State, s': State, l: Ledger, l': Ledger)
    requires InformersTracked(s, l) && s.next <= s'.next
    requires s'.watches.Keys == s.watches.Keys
    requires forall k | k in s.watches :: s'.watches[k].informer == s.watches[k].informer
    requires l'.started == l.started && l'.stopped == l.stopped
    ensures InformersTracked(s', l')
  {
  }

  lemma OneMoreChannel(s: State, s': State, k: WatchKey, c: Consumer, l: Ledger, l': Ledger)
    requires ChannelsTracked(s, l) && s'.next == s.next + 1
    requires forall k', c' :: Holds(s', k', c') <==> Holds(s, k', c') || (k' == k && c' == c)
    requires forall k', c' | Holds(s', k', c') ::
      ChannelOf(s', k', c') == if k' == k && c' == c then s.next else ChannelOf(s, k', c')
    requires !Holds(s, k, c) && s.next !in l.closed
    requires l'.attached == l.attached[s.next := (k, c)] && l'.closed == l.closed && l'.detached == l.detached
    ensures ChannelsTracked(s', l')
  {
  }

  lemma AttachKeepsCore(s: State, k: WatchKey, c: Consumer, callback: Callback)
    requires Core(s) && k in s.watches && !Holds(s, k, c)
    ensures Core(AttachHandler(s, k, c, callback))
  {
    var s' := AttachHandler(s, k, c, callback);
    var l, l' := Replay(s.log), Replay(s'.log);
    Append(s.log, Attached(s.next, k, c));
    assert InformersTracked(s', l') by { SameInformers(s, s', l, l'); }
    assert ChannelsTracked(s', l') by { OneMoreChannel(s, s', k, c, l, l'); }
    assert ClientsBalanced(s', l') by { SameClients(s, s', l, l', multiset{}); }
  }

  lemma OneLessInformer(s: State, s': State, k: WatchKey, l: Ledger, l': Ledger)
    requires InformersTracked(s, l) && k in s.watches && s'.watches == s.watches - {k} && s'.next == s.next
    requires l'.started == l.started && l'.stopped == l.stopped + {s.watches[k].informer}
    ensures InformersTracked(s', l')
  {
  }

  lemma OneLessWatch(s: State, s': State, k: WatchKey, l: Ledger)
    requires ClientsBalanced(s, l) && k in s.watches && s'.watches == s.watches - {k} && s'.releaser == s.releaser
    ensures s.releaser ==> l.given[k.identity] < l.acquired[k.identity]
    ensures ClientsBalanced(s', if s.releaser then l.(given := l.given + multiset{k.identity}) else l)
  {
    assert k in Watched(s, k.identity);
    forall id ensures Watched(s', id) == if id == k.identity then Watched(s, id) - {k} else Watched(s, id) {
    }
  }

  lemma StopKeepsCore(s: State, k: WatchKey)
    requires Core(s) && k in s.watches && s.watches[k].handlers == map[]
    ensures Core(StopWatch(s, k))
  {
    var s1 := Log(s, [Stopped(s.watches[k].informer)]).(watches := s.watches - {k});
    var s' := StopWatch(s, k);
    var l, l1 := Replay(s.log), Replay(s1.log);
    Append(s.log, Stopped(s.watches[k].informer));
    assert InformersTracked(s1, l1) by { OneLessInformer(s, s1, k, l, l1); }
    assert ChannelsTracked(s1, l1) by { SameChannels(s, s1, l, l1); }
    OneLessWatch(s, s1, k, l);
    if s.releaser {
      Append(s1.log, GivenBack(k.identity));
      SameBooks(s1, s', l1, Replay(s'.log));
      StoppedBalance(s1, s', l, Replay(s'.log), k.identity);
    }
  }

  lemma StoppedBalance(s1: State, s': State, l: Ledger, l': Ledger, id: Name)
    requires s'.watches == s1.watches && s'.releaser == s1.releaser == true
    requires ClientsBalanced(s1, l.(given := l.given + multiset{id}))
    requires l'.acquired == l.acquired && l'.given == l.given + multiset{id}
    ensures ClientsBalanced(s', l')
  {
    assert forall x :: Watched(s', x) == Watched(s1, x);
  }

  lemma OneLessChannel(s: State, s': State, k: WatchKey, c: Consumer, l: Ledger, l': Ledger)
    requires ChannelsTracked(s, l) && Holds(s, k, c) && s'.next == s.next
    requires forall k', c' :: Holds(s', k', c') <==> Holds(s, k', c') && (k' != k || c' != c)
    requires forall k', c' | Holds(s', k', c') :: ChannelOf(s', k', c') == ChannelOf(s, k', c')
    requires var h := ChannelOf(s, k, c);
      l'.attached == l.attached && l'.closed == l.closed + {h} && l'.detached == l.detached + {h}
    ensures ChannelsTracked(s', l')
  {
  }

  lemma DropKeepsCore(s: State, k: WatchKey, c: Consumer)
    requires Core(s) && Holds(s, k, c)
    ensures Core(DropHandler(s, k, c))
  {
    var s' := DropHandler(s, k, c);
    var h := ChannelOf(s, k, c);
    var l, l' := Replay(s.log), Replay(s'.log);
    ClosedLog(s.log, h);
    assert InformersTracked(s', l') by { SameInformers(s, s', l, l'); }
    assert ChannelsTracked(s', l') by { OneLessChannel(s, s', k, c, l, l'); }
    assert ClientsBalanced(s', l') by { SameClients(s, s', l, l', multiset{}); }
  }

  lemma ReleaseKeepsCore(s: State, k: WatchKey, c: Consumer)
    requires Core(s)
    ensures Core(ReleaseWatch(s, k, c))
  {
    if Holds(s, k, c) {
      DropKeepsCore(s, k, c);
      if DropHandler(s, k, c).watches[k].handlers == map[] {
        StopKeepsCore(DropHandler(s, k, c), k);
      }
    }
  }

  lemma CoreIgnoresIndex(s: State, index: map<Consumer, set<WatchKey>>)
    requires Core(s)
    ensures Core(s.(index := index))
  {
    var s' := s.(index := index);
    assert forall k, c :: Holds(s', k, c) <==> Holds(s, k, c);
    assert forall k, c | Holds(s, k, c) :: ChannelOf(s', k, c) == ChannelOf(s, k, c);
    assert forall id :: Watched(s', id) == Watched(s, id);
  }
}
