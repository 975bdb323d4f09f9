/** The WatchRegistry object: its methods, in the order in which they touch maps, channels and contexts,
    proved against the functions of WatchModel. */
module WatchRegistry {
  import opened Wrappers
  import opened WatchModel
  import opened WatchLaws
  import opened WatchCalls

  /** A Go channel that is only ever closed; closing it a second time panics. */
  class Channel {
    var closed: bool

    constructor ()
      ensures !closed
    {
      closed := false;
    }

    method Close()
      requires !closed
      modifies this
      ensures closed
    {
      closed := true;
    }
  }

  /** A context and all above it, the nearest first. Cancelling one ends those below it. */
  class Context {
    const id: ContextId
    const parent: Context?
    const above: seq<Context>
    var cancelled: bool

    constructor (id: ContextId, parent: Context?)
      ensures this.id == id && this.parent == parent && !cancelled
      ensures above == if parent == null then [] else [parent] + parent.above
    {
      this.id, this.parent, cancelled := id, parent, false;
      above := if parent == null then [] else [parent] + parent.above;
    }

    predicate Done()
      reads this, above
    {
      cancelled || exists c | c in above :: c.cancelled
    }

    method Cancel()
      modifies this
      ensures cancelled
    {
      cancelled := true;
    }
  }

  /** The context was made under the one with this id. */
  predicate Under(c: Context, parent: ContextId) {
    c.parent != null && c.parent.id == parent && c.above == [c.parent] + c.parent.above
  }

  lemma MadeUnder(c: Context, parent: Context)
    requires c.parent == parent && c.above == [parent] + parent.above
    ensures Under(c, parent.id)
  {
  }

  predicate IsCall(e: Event) {
    !e.Closed? && !e.Stopped?
  }

  /** The calls among the events: closing a channel and cancelling a context are no calls. */
  function Calls(log: seq<Event>): seq<Event> {
    if log == [] then []
    else
      var e := log[|log| - 1];
      Calls(log[..|log| - 1]) + if IsCall(e) then [e] else []
  }

  lemma CallsAppend(log: seq<Event>, e: Event)
    ensures Calls(log + [e]) == Calls(log) + if IsCall(e) then [e] else []
  {
    assert (log + [e])[..|log|] == log;
  }

  // What one step adds to the calls, and to the closed channels and stopped informers.

  lemma StopFacts(s: State, k: WatchKey)
    requires Core(s) && k in s.watches && s.watches[k].handlers == map[]
    ensures var s' := StopWatch(s, k); var l, l' := Replay(s.log), Replay(s'.log);
      && Core(s') && l'.closed == l.closed && l'.stopped == l.stopped + {s.watches[k].informer}
      && Calls(s'.log) == (if s.releaser then Calls(s.log) + [GivenBack(k.identity)] else Calls(s.log))
      && s' == s.(watches := s.watches - {k}, log := s'.log)
  {
    hide Core;
    StopKeepsCore(s, k);
    var log := s.log + [Stopped(s.watches[k].informer)];
    Append(s.log, Stopped(s.watches[k].informer));
    CallsAppend(s.log, Stopped(s.watches[k].informer));
    Append(log, GivenBack(k.identity));
    CallsAppend(log, GivenBack(k.identity));
  }

  lemma DropFacts(s: State, k: WatchKey, c: Consumer)
    requires Core(s) && Holds(s, k, c)
    ensures var s' := DropHandler(s, k, c); var l, l' := Replay(s.log), Replay(s'.log); var h := ChannelOf(s, k, c);
      && Core(s') && l'.closed == l.closed + {h} && l'.stopped == l.stopped
      && Calls(s'.log) == Calls(s.log) + [Detached(h)]
      && s'.index == Unindex(s.index, c, k) && s'.next == s.next && s'.releaser == s.releaser
  {
    hide Core, Unindex;
    DropKeepsCore(s, k, c);
    var h := ChannelOf(s, k, c);
    Append(s.log, Closed(h));
    CallsAppend(s.log, Closed(h));
    Append(s.log + [Closed(h)], Detached(h));
    CallsAppend(s.log + [Closed(h)], Detached(h));
  }

  lemma Quiet(log: seq<Event>, e: Event)
    requires !e.Closed? && !e.Stopped?
    ensures Replay(log + [e]).closed == Replay(log).closed && Replay(log + [e]).stopped == Replay(log).stopped
  {
    Append(log, e);
  }

  lemma StartLedger(s: State, parent: ContextId, k: WatchKey, a: Answers)
    ensures
      var l, l' := Replay(s.log), Replay(StartWatch(s, parent, k, a).s.log);
      l'.closed == l.closed && l'.stopped == l.stopped
  {
    hide Replay;
    var l1 := s.log + [Asked(k)];
    var l2 := l1 + [Acquired(k.identity)];
    Quiet(s.log, Asked(k));
    Quiet(l1, Acquired(k.identity));
    Quiet(l2, Started(s.next, k));
    Quiet(l2, GivenBack(k.identity));
  }

  lemma NextUnused(s: State)
    requires Core(s)
    ensures s.next !in Replay(s.log).stopped && s.next !in Replay(s.log).closed
  {
  }

  /** StartWatch adds one watch, or nothing. */
  lemma StartFacts(s: State, parent: ContextId, k: WatchKey, a: Answers)
    ensures var r := StartWatch(s, parent, k, a); var s' := r.s;
      && s'.index == s.index && s'.releaser == s.releaser && s'.cancelled == s.cancelled
      && (r.StartOk? <==> a.client.Client? && a.informer.Informer?)
      && (r.StartPanicked? <==> a.client.ClientPanic? || (a.client.Client? && a.informer.InformerPanic?))
      && (r.StartFailed? ==> r.error == if a.client.Client? then InformerFailed(k) else ClientFailed(k))
      && (if r.StartOk? then s'.watches == s.watches[k := Entry(s.next, parent, map[])] && s'.next == s.next + 1
          else s'.watches == s.watches && s'.next == s.next)
  {
  }

  /** What StartWatch logs, as calls: first for the client, then, if there is one, for the rest. */
  lemma StartCalls(s: State, parent: ContextId, k: WatchKey, a: Answers)
    ensures var got := s.log + [Asked(k)] + [Acquired(k.identity)]; var log := StartWatch(s, parent, k, a).s.log;
      && Calls(got) == Calls(s.log) + [Asked(k)] + [Acquired(k.identity)]
      && Replay(got).closed == Replay(s.log).closed && Replay(got).stopped == Replay(s.log).stopped
      && Calls(log) ==
        if !a.client.Client? then Calls(s.log) + [Asked(k)]
        else if a.informer.Informer? then Calls(got) + [Started(s.next, k)]
        else if s.releaser then Calls(got) + [GivenBack(k.identity)]
        else Calls(got)
  {
    hide Calls, Replay;
    var l1 := s.log + [Asked(k)];
    var l2 := l1 + [Acquired(k.identity)];
    Quiet(s.log, Asked(k));
    Quiet(l1, Acquired(k.identity));
    CallsAppend(s.log, Asked(k));
    CallsAppend(l1, Acquired(k.identity));
    CallsAppend(l2, Started(s.next, k));
    CallsAppend(l2, GivenBack(k.identity));
  }

  lemma AttachFacts(s: State, k: WatchKey, c: Consumer, callback: Callback)
    requires Core(s) && k in s.watches && !Holds(s, k, c)
    ensures var s' := AttachHandler(s, k, c, callback); var l, l' := Replay(s.log), Replay(s'.log);
      && Core(s') && l'.closed == l.closed && l'.stopped == l.stopped
      && s'.index == s.index && s'.releaser == s.releaser && s'.next == s.next + 1
      && s'.watches == s.watches[k := s.watches[k].(handlers := s.watches[k].handlers[c := Handler(s.next, callback)])]
      && Calls(s'.log) == Calls(s.log) + [Attached(s.next, k, c)]
  {
    hide Core;
    AttachKeepsCore(s, k, c, callback);
    Append(s.log, Attached(s.next, k, c));
    CallsAppend(s.log, Attached(s.next, k, c));
  }

  lemma ReleaseIs(s: State, k: WatchKey, c: Consumer, stuck: set<WatchKey>)
    ensures k !in s.watches || !Holds(s, k, c) ==> ReleaseWatch(s, k, c) == s && ReleaseError(s, k, c, stuck) == []
    ensures Holds(s, k, c) ==>
      var s' := DropHandler(s, k, c);
      && k in s'.watches
      && ReleaseWatch(s, k, c) == (if s'.watches[k].handlers == map[] then StopWatch(s', k) else s')
      && ReleaseError(s, k, c, stuck) == if k in stuck then [RemoveFailed(k)] else []
  {
  }

  /** The provider, the InformerFunc and the informers: what the registry calls. */
  class Outside {
    const releaser: bool
    var calls: seq<Event>
    var serial: nat      // numbers the informers and the handler registrations it makes

    constructor (releaser: bool)
      ensures this.releaser == releaser && calls == [] && serial == 0
    {
      this.releaser, calls, serial := releaser, [], 0;
    }

    method ClientFor(k: WatchKey, answer: ClientAnswer)
      modifies this`calls
      ensures calls == if answer.Client? then old(calls) + [Asked(k)] + [Acquired(k.identity)]
                       else old(calls) + [Asked(k)]
    {
      calls := calls + [Asked(k)];
      if answer.Client? {
        calls := calls + [Acquired(k.identity)];
      }
    }

    /** Release, on a provider that has it. */
    method Release(identity: Name)
      modifies this`calls
      ensures calls == if releaser then old(calls) + [GivenBack(identity)] else old(calls)
    {
      if releaser {
        calls := calls + [GivenBack(identity)];
      }
    }

    /** The InformerFunc made an informer. */
    method NewInformer() returns (informer: nat)
      modifies this`serial
      ensures informer == old(serial) && serial == old(serial) + 1
    {
      informer, serial := serial, serial + 1;
    }

    method Run(informer: nat, k: WatchKey)
      modifies this`calls
      ensures calls == old(calls) + [Started(informer, k)]
    {
      calls := calls + [Started(informer, k)];
    }

    method AddEventHandler(k: WatchKey, c: Consumer) returns (registration: nat)
      modifies this
      ensures registration == old(serial) && serial == old(serial) + 1
      ensures calls == old(calls) + [Attached(registration, k, c)]
    {
      registration, serial := serial, serial + 1;
      calls := calls + [Attached(registration, k, c)];
    }

    method RemoveEventHandler(registration: nat)
      modifies this`calls
      ensures calls == old(calls) + [Detached(registration)]
    {
      calls := calls + [Detached(registration)];
    }
  }

  datatype HandlerRegistration = HandlerRegistration(registration: nat, callback: Callback, released: Channel)

  class WatchEntry {
    const informer: nat
    const context: Context
    var handlers: map<Consumer, HandlerRegistration>

    constructor (informer: nat, context: Context)
      ensures this.informer == informer && this.context == context && handlers == map[]
    {
      this.informer, this.context, handlers := informer, context, map[];
    }
  }

  /** An entry as it is now. */
  datatype EntryView = EntryView(informer: nat, context: Context, handlers: map<Consumer, HandlerRegistration>)

  predicate HandlerMirrors(h: HandlerRegistration, m: Handler, channels: map<nat, Channel>) {
    h.registration == m.channel && h.callback == m.callback && m.channel in channels
      && channels[m.channel] == h.released
  }

  predicate EntryMirrors(e: EntryView, m: Entry, channels: map<nat, Channel>, contexts: map<nat, Context>) {
    && e.informer == m.informer && m.informer in contexts && contexts[m.informer] == e.context
    && Under(e.context, m.parent)
    && e.handlers.Keys == m.handlers.Keys
    && forall c | c in e.handlers :: HandlerMirrors(e.handlers[c], m.handlers[c], channels)
  }

  /** The entries are those of the model. */
  predicate Mirrors(entries: map<WatchKey, EntryView>, watches: map<WatchKey, Entry>,
                    channels: map<nat, Channel>, contexts: map<nat, Context>)
  {
    entries.Keys == watches.Keys && forall k | k in entries :: EntryMirrors(entries[k], watches[k], channels, contexts)
  }

  predicate Injective<K, V(==)>(m: map<K, V>) {
    forall k, k' | k in m && k' in m && k != k' :: m[k] != m[k']
  }

  /** How startWatchLocked returns: a panic of ClientFor or the InformerFunc passes through it. */
  datatype StartOutcome = NewEntry(entry: WatchEntry) | NoEntry(error: Error) | StartPanic

  /** The handle a consumer gets; ZeroRegistration is one it made itself. */
  datatype WatchRegistration =
    | ZeroRegistration
    | WatchRegistration(key: WatchKey, consumerID: Consumer, informer: nat, released: Channel, context: Context)

  predicate Represents(r: WatchRegistration, h: Handle, channels: map<nat, Channel>, contexts: map<nat, Context>) {
    && r.WatchRegistration? && r.key == h.key && r.consumerID == h.consumer && r.informer == h.informer
    && h.channel in channels && channels[h.channel] == r.released
    && h.informer in contexts && contexts[h.informer] == r.context
    && Under(r.context, h.parent)
  }

  /** How one iteration of the loop of EnsureWatchSet ends. */
  datatype Step = Got(registration: WatchRegistration, added: bool) | Lost(error: Error) | Threw

  /** What EnsureWatchSet and ReleaseAll return: a slice of registrations, or none, and errors; or a panic. */
  datatype Outcome =
    Registrations(regs: seq<WatchRegistration>, errors: seq<Error>) | NoRegistrations(errors: seq<Error>) | Panic

  predicate AllRepresent(regs: seq<WatchRegistration>, hs: seq<Handle>, channels: map<nat, Channel>,
                         contexts: map<nat, Context>) {
    |regs| == |hs| && forall i | 0 <= i < |regs| :: Represents(regs[i], hs[i], channels, contexts)
  }

  predicate Reports(o: Outcome, r: Result, channels: map<nat, Channel>, contexts: map<nat, Context>) {
    match r
    case Registered(hs, errs) => o.Registrations? && o.errors == errs && AllRepresent(o.regs, hs, channels, contexts)
    case Refused(errs) => o == NoRegistrations(errs)
    case Cleared(errs) => o == NoRegistrations(errs)
    case Panicked => o == Panic
  }

  /** One iteration of the loop, from p to p'. */
  predicate StepReports(step: Step, p: Phase, p': Phase, channels: map<nat, Channel>, contexts: map<nat, Context>,
                        k: WatchKey)
    requires p.Going?
  {
    match p'
    case Going(_, added, hs) =>
      && step.Got? && added == p.added + (if step.added then [k] else [])
      && |hs| == |p.handles| + 1 && hs[..|p.handles|] == p.handles
      && Represents(step.registration, hs[|p.handles|], channels, contexts)
    case Failing(_, added, e) => step == Lost(e) && added == p.added
    case Panicking(_, added) => step == Threw && added == p.added
  }

  datatype Read = Indexer(informer: nat) | ErrWatchStopped | ErrNotReturned

  function GetIndexer(r: WatchRegistration): (read: Read)
    reads if r.WatchRegistration? then {r.released, r.context} else {}
    reads if r.WatchRegistration? then r.context.above else []
    ensures read == ErrNotReturned <==> r.ZeroRegistration?
  {
    if r.ZeroRegistration? then ErrNotReturned
    else if r.released.closed || r.context.Done() then ErrWatchStopped
    else Indexer(r.informer)
  }

  class WatchRegistry {
    var watches: map<WatchKey, WatchEntry>
    var consumerKeys: map<Consumer, set<WatchKey>>
    const outside: Outside

    ghost var model: State
    ghost var channels: map<nat, Channel>      // every released channel made, by serial
    ghost var contexts: map<nat, Context>      // every informer context made, by serial
    ghost var stored: map<nat, WatchEntry>     // every entry made, by its informer's serial

    ghost function Repr(): set<object>
      reads this
    {
      {this, outside} + watches.Values + channels.Values + contexts.Values
    }

    ghost function Entries(): map<WatchKey, EntryView>
      reads this, watches.Values
    {
      map k | k in watches :: EntryView(watches[k].informer, watches[k].context, watches[k].handlers)
    }

    ghost function ClosedNow(): set<nat>
      reads this, channels.Values
    {
      set h | h in channels && channels[h].closed
    }

    ghost function CancelledNow(): set<nat>
      reads this, contexts.Values
    {
      set i | i in contexts && contexts[i].cancelled
    }

    /** No two keys share an entry, no two serials a channel or a context, all serials are used ones, and each watch has
        the very entry that was made with its informer. */
    ghost predicate Separate()
      reads this
    {
      && Injective(watches) && Injective(channels) && Injective(contexts)
      && (forall h | h in channels :: h < model.next) && (forall i | i in contexts :: i < model.next)
      && (forall i | i in stored :: i < model.next)
      && (forall k | k in watches :: watches[k].informer in stored && stored[watches[k].informer] == watches[k])
    }

    /** The object is in the state model: same maps, the channels closed and the contexts cancelled that the
        model's log says, and the outside called as it says. */
    ghost predicate Linked()
      reads Repr()
    {
      && consumerKeys == model.index && Mirrors(Entries(), model.watches, channels, contexts) && Separate()
      && ClosedNow() == Replay(model.log).closed && CancelledNow() == Replay(model.log).stopped
      && outside.calls == Calls(model.log) && outside.releaser == model.releaser && outside.serial == model.next
    }

    /** Between calls. */
    ghost predicate Valid()
      reads Repr()
    {
      Linked() && Inv(model)
    }

    constructor (outside: Outside)
      requires outside.calls == [] && outside.serial == 0
      ensures Valid() && model == Empty(outside.releaser) && this.outside == outside
      ensures fresh(Repr() - {outside})
    {
      watches, consumerKeys := map[], map[];
      this.outside := outside;
      model, channels, contexts, stored := Empty(outside.releaser), map[], map[], map[];
      new;
      EmptyInv(outside.releaser);
    }

    lemma LinkedKeys()
      requires Linked()
      ensures watches.Keys == model.watches.Keys && consumerKeys == model.index
    {
    }

    lemma LinkedOutside()
      requires Linked()
      ensures outside.releaser == model.releaser && outside.serial == model.next && outside.calls == Calls(model.log)
    {
    }

    lemma LinkedNext()
      requires Linked()
      ensures model.next !in channels && model.next !in contexts && model.next !in stored
    {
    }

    lemma LinkedContext(key: WatchKey)
      requires Linked() && key in watches
      ensures var i := watches[key].informer;
        && i in contexts && contexts[i] == watches[key].context
        && forall j | j in contexts && j != i :: contexts[j] != contexts[i]
    {
      assert EntryMirrors(Entries()[key], model.watches[key], channels, contexts);
    }

    lemma ReprHas()
      ensures this in Repr() && outside in Repr()
      ensures forall k | k in watches :: watches[k] in Repr()
      ensures forall h | h in channels :: channels[h] in Repr()
      ensures forall i | i in contexts :: contexts[i] in Repr()
    {
    }

    /** What the object knows of consumer c's handler on key, once it has found it. */
    lemma LinkedHandler(key: WatchKey, c: Consumer)
      requires Linked() && Core(model) && key in watches
      ensures key in model.watches
      ensures c in watches[key].handlers <==> Holds(model, key, c)
      ensures Holds(model, key, c) ==>
        var h := ChannelOf(model, key, c); var hr := watches[key].handlers[c];
        && h in channels && channels[h] == hr.released && hr.registration == h && !hr.released.closed
        && forall j | j in channels && j != h :: channels[j] != hr.released
      ensures forall k | k in watches && k != key :: watches[k] != watches[key]
      ensures |watches[key].handlers| == 0 <==> model.watches[key].handlers == map[]
    {
      hide Lawful, InformersTracked, ClientsBalanced, Calls, CancelledNow;
      assert EntryMirrors(Entries()[key], model.watches[key], channels, contexts);
      if Holds(model, key, c) {
        assert HandlerMirrors(watches[key].handlers[c], model.watches[key].handlers[c], channels);
        assert ChannelOf(model, key, c) !in ClosedNow();
      }
      assert |watches[key].handlers| == |model.watches[key].handlers| by {
        assert |watches[key].handlers.Keys| == |model.watches[key].handlers.Keys|;
      }
    }

    // What a step does to the views of the heap.

    twostate lemma OneEntryGone(key: WatchKey)
      requires watches == old(watches) - {key} && forall k | k in watches :: unchanged(watches[k])
      ensures Entries() == old(Entries()) - {key}
    {
    }

    twostate lemma NoneClosed()
      requires channels == old(channels) && forall h | h in channels :: unchanged(channels[h])
      ensures ClosedNow() == old(ClosedNow())
    {
    }

    twostate lemma OneCancelled(i: nat)
      requires contexts == old(contexts) && i in contexts && contexts[i].cancelled
      requires forall j | j in contexts && j != i :: unchanged(contexts[j])
      ensures CancelledNow() == old(CancelledNow()) + {i}
    {
    }

    twostate lemma StillSeparate()
      requires channels == old(channels) && contexts == old(contexts) && stored == old(stored)
      requires old(Separate()) && old(model.next) <= model.next
      requires forall k | k in watches :: k in old(watches) && watches[k] == old(watches[k])
      ensures Separate()
    {
    }

    twostate lemma StopLinks(key: WatchKey)
      requires old(Linked()) && old(Core(model)) && key in old(watches)
      requires old(model).watches[key].handlers == map[]
      requires watches == old(watches) - {key} && consumerKeys == old(consumerKeys)
      requires channels == old(channels) && contexts == old(contexts) && stored == old(stored)
      requires model == StopWatch(old(model), key)
      requires outside.serial == old(outside.serial)
      requires outside.calls ==
                 if outside.releaser then old(outside.calls) + [GivenBack(key.identity)] else old(outside.calls)
      requires forall k | k in watches :: unchanged(watches[k])
      requires forall h | h in channels :: unchanged(channels[h])
      requires forall j | j in contexts && j != old(watches)[key].informer :: unchanged(contexts[j])
      requires old(watches)[key].context.cancelled
      ensures Linked() && Core(model)
    {
      ghost var i := old(model).watches[key].informer;
      assert i in contexts && contexts[i] == old(watches)[key].context by {
        assert old(EntryMirrors(Entries()[key], model.watches[key], channels, contexts));
      }
      hide Core, Lawful, Replay, Calls, StopWatch, Mirrors, Entries, ClosedNow, CancelledNow, Injective, Separate;
      StopFacts(old(model), key);
      OneEntryGone(key);
      OneCancelled(i);
      NoneClosed();
      StillSeparate();
      MirrorsStopped(old(Entries()), old(model.watches), channels, contexts, key);
    }

    method StopWatchLocked(key: WatchKey, entry: WatchEntry)
      requires Linked() && Core(model) && key in watches && watches[key] == entry
      requires model.watches[key].handlers == map[]
      modifies this`watches, this`model, outside`calls, entry.context
      ensures Linked() && model == StopWatch(old(model), key) && Core(model)
      ensures watches == old(watches) - {key}
    {

      hide *;
      LinkedContext(key);
      LinkedKeys();
      LinkedOutside();
      entry.context.Cancel();
      watches := watches - {key};
      outside.Release(key.identity);
      model := StopWatch(model, key);
      StopLinks(key);
    }

    twostate lemma OneEntryChanged(key: WatchKey)
      requires watches == old(watches) && key in watches
      requires forall k | k in watches && k != key :: unchanged(watches[k])
      ensures key in old(Entries()) && old(Entries())[key].handlers == old(watches[key].handlers)
      ensures Entries() == old(Entries())[key := old(Entries())[key].(handlers := watches[key].handlers)]
    {
    }

    twostate lemma OneClosed(h: nat)
      requires channels == old(channels) && h in channels && channels[h].closed
      requires forall j | j in channels && j != h :: unchanged(channels[j])
      ensures ClosedNow() == old(ClosedNow()) + {h}
    {
    }

    twostate lemma NoneCancelled()
      requires contexts == old(contexts) && forall i | i in contexts :: unchanged(contexts[i])
      ensures CancelledNow() == old(CancelledNow())
    {
    }

    twostate lemma DropLinks(at: (WatchKey, Consumer))
      requires old(Linked()) && old(Core(model)) && at.0 in old(watches) && old(Holds(model, at.0, at.1))
      requires watches == old(watches) && channels == old(channels) && contexts == old(contexts)
      requires stored == old(stored)
      requires watches[at.0].handlers == old(watches[at.0].handlers) - {at.1}
      requires consumerKeys == Unindex(old(consumerKeys), at.1, at.0)
      requires model == DropHandler(old(model), at.0, at.1)
      requires outside.serial == old(outside.serial)
      requires var h := old(ChannelOf(model, at.0, at.1));
        (h in channels && channels[h].closed && outside.calls == old(outside.calls) + [Detached(h)]
         && forall j | j in channels && j != h :: unchanged(channels[j]))
      requires forall k | k in watches && k != at.0 :: unchanged(watches[k])
      requires forall i | i in contexts :: unchanged(contexts[i])
      ensures Linked() && Core(model)
    {
      hide Core, Lawful, Replay, Calls, DropHandler, Mirrors, Entries, ClosedNow, CancelledNow, Injective, Separate;
      hide Unindex;
      DropFacts(old(model), at.0, at.1);
      OneEntryChanged(at.0);
      OneClosed(old(ChannelOf(model, at.0, at.1)));
      NoneCancelled();
      StillSeparate();
      MirrorsDropped(old(Entries()), old(model), channels, contexts, at.0, at.1);
    }

    /** The part of releaseWatchLocked that keeps consumerKeys in sync. */
    method ForgetKey(key: WatchKey, c: Consumer)
      modifies this`consumerKeys
      ensures consumerKeys == Unindex(old(consumerKeys), c, key)
    {
      if c in consumerKeys {
        var keys := consumerKeys[c] - {key};
        if keys == {} {
          consumerKeys := consumerKeys - {c};
        } else {
          consumerKeys := consumerKeys[c := keys];
        }
      }
    }

    twostate lemma ReprGrows()
      requires forall k | k in watches :: watches[k] in old(watches.Values) || fresh(watches[k])
      requires forall h | h in channels :: channels[h] in old(channels.Values) || fresh(channels[h])
      requires forall i | i in contexts :: contexts[i] in old(contexts.Values) || fresh(contexts[i])
      ensures fresh(Repr() - old(Repr()))
    {
    }

    twostate lemma ReprShrinks()
      requires channels == old(channels) && contexts == old(contexts) && stored == old(stored)
      requires forall k | k in watches :: k in old(watches) && watches[k] == old(watches[k])
      ensures Repr() <= old(Repr())
    {
    }

    /** releaseWatchLocked up to the point where it looks whether the watch has handlers left. */
    method DropHandlerLocked(key: WatchKey, c: Consumer, entry: WatchEntry)
      requires Linked() && Core(model) && key in watches && watches[key] == entry && Holds(model, key, c)
      modifies Repr()
      ensures Linked() && Core(model) && model == DropHandler(old(model), key, c)
      ensures watches == old(watches) && channels == old(channels) && contexts == old(contexts) && stored == old(stored)
    {
      hide *;
      ReprHas();
      LinkedKeys();
      LinkedOutside();
      LinkedHandler(key, c);
      var hr := entry.handlers[c];
      entry.handlers := entry.handlers - {c};
      hr.released.Close();
      ForgetKey(key, c);
      outside.RemoveEventHandler(hr.registration);
      model := DropHandler(model, key, c);
      DropLinks((key, c));
    }

    method ReleaseWatchLocked(key: WatchKey, c: Consumer, stuck: set<WatchKey>) returns (errs: seq<Error>)
      requires Linked() && Core(model)
      modifies Repr()
      ensures Linked() && model == ReleaseWatch(old(model), key, c) && Core(model)
      ensures errs == ReleaseError(old(model), key, c, stuck)
      ensures channels == old(channels) && contexts == old(contexts) && stored == old(stored) && Repr() <= old(Repr())
    {
      hide *;
      errs := [];
      ReprHas();
      LinkedKeys();
      ReleaseIs(model, key, c, stuck);
      if key !in watches {
        return;
      }
      var entry := watches[key];
      LinkedHandler(key, c);
      if c !in entry.handlers {
        return;
      }
      DropHandlerLocked(key, c, entry);
      if key in stuck {
        errs := [RemoveFailed(key)];
      }
      LinkedHandler(key, c);
      LinkedContext(key);
      ReprHas();
      if |entry.handlers| == 0 {
        StopWatchLocked(key, entry);
      }
      ReprShrinks();
    }

    /** Calls were made, and nothing else happened. */
    twostate lemma CallLinks()
      requires old(Linked())
      requires watches == old(watches) && consumerKeys == old(consumerKeys)
      requires channels == old(channels) && contexts == old(contexts) && stored == old(stored)
      requires model.watches == old(model).watches && model.index == old(model).index && model.next == old(model).next
      requires model.releaser == old(model).releaser
      requires Replay(model.log).closed == old(Replay(model.log).closed)
      requires Replay(model.log).stopped == old(Replay(model.log).stopped)
      requires outside.calls == Calls(model.log) && outside.serial == old(outside.serial)
      requires forall k | k in watches :: unchanged(watches[k])
      requires forall h | h in channels :: unchanged(channels[h])
      requires forall i | i in contexts :: unchanged(contexts[i])
      ensures Linked()
    {
      assert Entries() == old(Entries());
      hide Core, Lawful, Replay, Calls, Mirrors, Entries, ClosedNow, CancelledNow, Injective, Separate;
      NoneClosed();
      NoneCancelled();
      StillSeparate();
    }

    twostate lemma OneStarted(i: nat)
      requires i !in old(contexts) && i in contexts && contexts == old(contexts)[i := contexts[i]]
      requires !contexts[i].cancelled
      requires forall j | j in old(contexts) :: unchanged(old(contexts)[j])
      ensures CancelledNow() == old(CancelledNow())
    {
    }

    twostate lemma StartSeparate(key: WatchKey)
      requires old(Separate()) && old(key !in watches) && key in watches && old(model.next) == model.next - 1
      requires watches == old(watches)[key := watches[key]] && channels == old(channels)
      requires fresh(watches[key]) && fresh(watches[key].context) && watches[key].informer == old(model.next)
      requires contexts == old(contexts)[old(model.next) := watches[key].context]
      requires stored == old(stored)[old(model.next) := watches[key]]
      ensures Separate()
    {
    }

    twostate lemma StartLinks(at: (WatchKey, ContextId))
      requires old(Linked()) && old(at.0 !in watches && at.0 !in model.watches) && at.0 in watches
      requires old(model.next) == model.next - 1
      requires watches == old(watches)[at.0 := watches[at.0]]
      requires consumerKeys == old(consumerKeys) && channels == old(channels)
      requires fresh(watches[at.0]) && fresh(watches[at.0].context)
      requires watches[at.0].informer == old(model.next) && watches[at.0].handlers == map[]
      requires !watches[at.0].context.cancelled
      requires contexts == old(contexts)[old(model.next) := watches[at.0].context]
      requires stored == old(stored)[old(model.next) := watches[at.0]]
      requires model.watches == old(model).watches[at.0 := Entry(old(model.next), at.1, map[])]
      requires Under(watches[at.0].context, at.1)
      requires model.index == old(model).index && model.releaser == old(model).releaser
      requires Replay(model.log).closed == old(Replay(model.log).closed)
      requires Replay(model.log).stopped == old(Replay(model.log).stopped)
      requires outside.calls == Calls(model.log) && outside.serial == old(outside.serial) + 1
      requires forall k | k in old(watches) :: unchanged(watches[k])
      requires forall h | h in channels :: unchanged(channels[h])
      requires forall i | i in old(contexts) :: unchanged(old(contexts)[i])
      requires old(model.next) !in Replay(model.log).stopped
      ensures Linked()
    {
      hide Core, Lawful, Replay, Calls, Mirrors, Under, CancelledNow, ClosedNow;
      assert old(model.next) !in old(contexts);
      assert Entries() == old(Entries())[at.0 := EntryView(old(model.next), watches[at.0].context, map[])];
      MirrorsStarted(old(Entries()), old(model).watches, channels, old(contexts), at.0, old(model.next),
                     watches[at.0].context, at.1);
      hide Separate, Entries;
      NoneClosed();
      OneStarted(old(model.next));
      StartSeparate(at.0);
    }

    /** startWatchLocked from the point where it has a client for key and the InformerFunc answers well. */
    method RunEntry(parent: Context, key: WatchKey, ghost s': State) returns (entry: WatchEntry)
      requires Linked() && key !in watches && key !in model.watches
      requires s'.watches == model.watches[key := Entry(model.next, parent.id, map[])] && s'.next == model.next + 1
      requires s'.index == model.index && s'.releaser == model.releaser && model.next !in Replay(s'.log).stopped
      requires Replay(s'.log).closed == Replay(model.log).closed && Replay(s'.log).stopped == Replay(model.log).stopped
      requires Calls(s'.log) == Calls(model.log) + [Started(model.next, key)]
      modifies this, outside
      ensures Linked() && model == s' && channels == old(channels)
      ensures watches == old(watches)[key := entry] && contexts == old(contexts)[old(model).next := entry.context]
      ensures stored == old(stored)[old(model).next := entry]
      ensures fresh(entry) && fresh(entry.context) && entry.context.parent == parent
    {
      hide *;
      LinkedOutside();
      var informer := outside.NewInformer();
      var context := new Context(informer, parent);
      MadeUnder(context, parent);
      entry := new WatchEntry(informer, context);
      watches := watches[key := entry];
      outside.Run(informer, key);
      contexts := contexts[informer := context];
      stored := stored[informer := entry];
      model := s';
      StartLinks((key, parent.id));
    }

    method StartWatchLocked(parent: Context, key: WatchKey, a: Answers) returns (r: StartOutcome)
      requires Linked() && Core(model) && key !in watches
      modifies this, outside
      ensures Linked() && Core(model) && model == StartWatch(old(model), parent.id, key, a).s
      ensures match StartWatch(old(model), parent.id, key, a)
        case StartOk(_) =>
          r.NewEntry? && watches == old(watches)[key := r.entry] && fresh(r.entry) && fresh(r.entry.context)
                           && contexts == old(contexts)[old(model).next := r.entry.context]
                           && stored == old(stored)[old(model).next := r.entry]
        case StartFailed(_, e) =>
          r == NoEntry(e) && watches == old(watches) && contexts == old(contexts) && stored == old(stored)
        case StartPanicked(_) =>
          r == StartPanic && watches == old(watches) && contexts == old(contexts) && stored == old(stored)
      ensures channels == old(channels)
    {
      hide *;
      LinkedKeys();
      LinkedOutside();
      ghost var s := model;
      NextUnused(s);
      StartFacts(s, parent.id, key, a);
      StartLedger(s, parent.id, key, a);
      StartCalls(s, parent.id, key, a);
      StartKeepsCore(s, parent.id, key, a);
      ghost var s' := StartWatch(s, parent.id, key, a).s;
      outside.ClientFor(key, a.client);
      if !a.client.Client? {
        r := if a.client.ClientPanic? then StartPanic else NoEntry(ClientFailed(key));
        model := s';
        CallLinks();
      } else if !a.informer.Informer? {
        outside.Release(key.identity);
        r := if a.informer.InformerPanic? then StartPanic else NoEntry(InformerFailed(key));
        model := s';
        CallLinks();
      } else {
        model := s.(log := s.log + [Asked(key)] + [Acquired(key.identity)]);
        CallLinks();
        var entry := RunEntry(parent, key, s');
        r := NewEntry(entry);
      }
    }

    twostate lemma AttachLinks(at: (WatchKey, Consumer))
      requires old(Linked()) && old(at.0 in watches && at.0 in model.watches && !Holds(model, at.0, at.1))
      requires watches == old(watches) && consumerKeys == old(consumerKeys) && contexts == old(contexts)
      requires stored == old(stored)
      requires at.1 in watches[at.0].handlers
      requires var hr := watches[at.0].handlers[at.1];
        (watches[at.0].handlers == old(watches[at.0].handlers)[at.1 := hr]
         && hr.registration == old(model).next && fresh(hr.released) && !hr.released.closed
         && channels == old(channels)[old(model).next := hr.released]
         && model.watches == old(model).watches[at.0 := old(model).watches[at.0].(
              handlers := old(model).watches[at.0].handlers[at.1 := Handler(old(model).next, hr.callback)])])
      requires model.index == old(model).index && model.releaser == old(model).releaser
      requires model.next == old(model).next + 1
      requires Replay(model.log).closed == old(Replay(model.log).closed)
      requires Replay(model.log).stopped == old(Replay(model.log).stopped)
      requires outside.calls == Calls(model.log) && outside.serial == old(outside.serial) + 1
      requires forall k | k in watches && k != at.0 :: unchanged(watches[k])
      requires forall h | h in old(channels) :: unchanged(old(channels)[h])
      requires forall i | i in contexts :: unchanged(contexts[i])
      requires old(model.next) !in Replay(model.log).closed
      ensures Linked()
    {
      hide Core, Lawful, Replay, Calls, Mirrors;
      var hr := watches[at.0].handlers[at.1];
      OneEntryChanged(at.0);
      NoneCancelled();
      assert old(model).next !in old(channels);
      assert ClosedNow() == old(ClosedNow());
      MirrorsAttached(old(Entries()), old(model).watches, old(channels), contexts, at.0, at.1, hr);
    }

    /** One more handler on an entry, with a new released channel. */
    method AttachLocked(key: WatchKey, c: Consumer, callback: Callback, entry: WatchEntry)
      requires Linked() && Core(model) && key in watches && watches[key] == entry && key in model.watches
      requires !Holds(model, key, c)
      modifies this, outside, entry
      ensures Linked() && Core(model) && model == AttachHandler(old(model), key, c, callback)
      ensures watches == old(watches) && contexts == old(contexts) && stored == old(stored)
      ensures c in entry.handlers && fresh(entry.handlers[c].released) && old(model).next !in old(channels)
      ensures channels == old(channels)[old(model).next := entry.handlers[c].released]
    {
      hide *;
      LinkedOutside();
      LinkedNext();
      LinkedHandler(key, c);
      ghost var s := model;
      NextUnused(s);
      AttachFacts(s, key, c, callback);
      var registration := outside.AddEventHandler(key, c);
      var released := new Channel();
      entry.handlers := entry.handlers[c := HandlerRegistration(registration, callback, released)];
      channels := channels[registration := released];
      model := AttachHandler(s, key, c, callback);
      AttachLinks((key, c));
    }

    /** newRegistration: the handle for c, whose handler must already be on entry. */
    function NewRegistration(key: WatchKey, c: Consumer, entry: WatchEntry): WatchRegistration
      requires c in entry.handlers
      reads entry
    {
      WatchRegistration(key, c, entry.informer, entry.handlers[c].released, entry.context)
    }

    lemma RegistrationRepresents(key: WatchKey, c: Consumer)
      requires Linked() && Core(model) && key in watches && Holds(model, key, c)
      ensures c in watches[key].handlers
      ensures Represents(NewRegistration(key, c, watches[key]), HandleOf(model, key, c), channels, contexts)
    {
      hide Core, Separate, Calls, Replay, ClosedNow, CancelledNow;
      assert EntryMirrors(Entries()[key], model.watches[key], channels, contexts);
      assert HandlerMirrors(watches[key].handlers[c], model.watches[key].handlers[c], channels);
    }

    /** What becomes of an entry when AddEventHandler has failed. */
    method StopIfUnused(key: WatchKey, entry: WatchEntry)
      requires Linked() && Core(model) && key in watches && watches[key] == entry && key in model.watches
      modifies Repr()
      ensures Linked() && Core(model)
      ensures model == if old(model).watches[key].handlers == map[] then StopWatch(old(model), key) else old(model)
      ensures forall k | k in watches :: k in old(watches) && watches[k] == old(watches)[k]
      ensures channels == old(channels) && contexts == old(contexts) && stored == old(stored) && Repr() <= old(Repr())
    {
      hide *;
      ReprHas();
      LinkedHandler(key, "");
      LinkedContext(key);
      if |entry.handlers| == 0 {
        StopWatchLocked(key, entry);
      }
      ReprShrinks();
    }

    /** The second half of one iteration, once key is watched. */
    method AttachStep(c: Consumer, w: WatchRequest, a: Answers, ghost p: Phase) returns (step: Step)
      requires Linked() && Core(model) && w.key in watches && w.key in model.watches && p.Going? && p.s == model
      modifies Repr()
      ensures Linked() && Core(model)
      ensures model == Attach(p.s, c, w, a, p.added, p.handles).s
      ensures StepReports(step, p, Attach(p.s, c, w, a, p.added, p.handles), channels, contexts, w.key)
      ensures fresh(Repr() - old(Repr()))
      ensures Grown(old(channels), channels) && Grown(old(contexts), contexts) && Grown(old(stored), stored)
    {
      hide *;
      ReprHas();
      LinkedHandler(w.key, c);
      AttachIs(p.s, c, w, a, p.added, p.handles);
      var entry := watches[w.key];
      if c in entry.handlers {
        RegistrationRepresents(w.key, c);
        step := Got(NewRegistration(w.key, c, entry), false);
        GotReports(step, p, model, w.key, HandleOf(model, w.key, c), channels, contexts);
      } else if a.attaches {
        AttachLocked(w.key, c, w.callback, entry);
        RegistrationRepresents(w.key, c);
        step := Got(NewRegistration(w.key, c, entry), true);
        GotReports(step, p, model, w.key, HandleOf(model, w.key, c), channels, contexts);
      } else {
        StopIfUnused(w.key, entry);
        step := Lost(AttachFailed(w.key));
        LostReports(p, model, AttachFailed(w.key), channels, contexts, w.key);
      }
      GrownOne(old(channels), channels, old(model).next);
      GrownOne(old(contexts), contexts, old(model).next);
      GrownOne(old(stored), stored, old(model).next);
      ReprGrows();
    }

    /** One iteration of the loop of EnsureWatchSet; p is where the loop is. */
    method EnsureKey(parent: Context, c: Consumer, w: WatchRequest, a: Answers, ghost p: Phase) returns (step: Step)
      requires Linked() && Core(model) && p.Going? && p.s == model
      modifies Repr()
      ensures Linked() && Core(model)
      ensures model == Iterate(p, parent.id, c, w, a).s
      ensures StepReports(step, p, Iterate(p, parent.id, c, w, a), channels, contexts, w.key)
      ensures fresh(Repr() - old(Repr()))
      ensures Grown(old(channels), channels) && Grown(old(contexts), contexts) && Grown(old(stored), stored)
    {
      hide *;
      ReprHas();
      LinkedKeys();
      LinkedNext();
      IterateIs(p, parent.id, c, w, a);
      ghost var p1 := p;
      if w.key !in watches {
        var r := StartWatchLocked(parent, w.key, a);
        ReprGrows();
        GrownOne(old(channels), channels, old(model).next);
        GrownOne(old(contexts), contexts, old(model).next);
        GrownOne(old(stored), stored, old(model).next);
        match r
        case StartPanic =>
          LostReports(p, model, ClientFailed(w.key), channels, contexts, w.key);
          step := Threw;
          return;
        case NoEntry(e) =>
          LostReports(p, model, e, channels, contexts, w.key);
          step := Lost(e);
          return;
        case NewEntry(_) =>
          p1 := Phase.Going(model, p.added, p.handles);
      }
      LinkedKeys();
      ghost var channels1, contexts1, stored1, repr1 := channels, contexts, stored, Repr();
      step := AttachStep(c, w, a, p1);
      assert forall o | o in Repr() && o !in repr1 :: !old(allocated(o));
      assert forall o | o in Repr() && o !in old(Repr()) :: fresh(o);
      GrownTwice(old(channels), channels1, channels);
      GrownTwice(old(contexts), contexts1, contexts);
      GrownTwice(old(stored), stored1, stored);
      StepReportsFrom(step, p1, p, Iterate(p, parent.id, c, w, a), channels, contexts, w.key);
    }

    /** The loops over releaseWatchLocked: of a rollback, of the stale keys, and of releaseAllLocked. */
    method ReleaseKeys(c: Consumer, keys: seq<WatchKey>, stuck: set<WatchKey>) returns (errs: seq<Error>)
      requires Linked() && Core(model)
      modifies Repr()
      ensures Linked() && Core(model) && model == ReleaseFirst(old(model), c, keys, |keys|)
      ensures errs == ReleaseErrors(old(model), c, keys, stuck, |keys|)
      ensures channels == old(channels) && contexts == old(contexts) && stored == old(stored) && Repr() <= old(Repr())
    {
      hide *;
      errs := [];
      ReleaseStarts(model, c, keys, stuck);
      for n := 0 to |keys|
        invariant Linked() && Core(model) && model == ReleaseFirst(old(model), c, keys, n)
        invariant errs == ReleaseErrors(old(model), c, keys, stuck, n)
        invariant channels == old(channels) && contexts == old(contexts) && stored == old(stored)
        invariant Repr() <= old(Repr())
      {
        ReleaseNext(old(model), c, keys, stuck, n);
        var err := ReleaseWatchLocked(keys[n], c, stuck);
        errs := errs + err;
      }
    }

    /** Only consumerKeys and the model's index have changed. */
    twostate lemma StoreLinks()
      requires old(Linked()) && watches == old(watches) && consumerKeys == model.index
      requires channels == old(channels) && contexts == old(contexts) && stored == old(stored)
      requires model == old(model).(index := model.index)
      requires outside.calls == old(outside.calls) && outside.serial == old(outside.serial)
      requires forall k | k in watches :: unchanged(watches[k])
      requires forall h | h in channels :: unchanged(channels[h])
      requires forall i | i in contexts :: unchanged(contexts[i])
      ensures Linked()
    {
      assert Entries() == old(Entries());
      hide Core, Lawful, Replay, Calls, Mirrors, Entries, ClosedNow, CancelledNow, Injective, Separate;
      NoneClosed();
      NoneCancelled();
      StillSeparate();
    }

    /** consumerKeys[c] = newCurrent. */
    method StoreKeys(c: Consumer, keys: set<WatchKey>)
      requires Linked()
      modifies this`consumerKeys, this`model
      ensures Linked() && model == old(model).(index := old(model).index[c := keys])
      ensures channels == old(channels) && contexts == old(contexts) && stored == old(stored) && Repr() <= old(Repr())
    {
      hide *;
      LinkedKeys();
      consumerKeys := consumerKeys[c := keys];
      model := model.(index := model.index[c := keys]);
      StoreLinks();
      ReprShrinks();
    }

    method ReleaseAllLocked(c: Consumer, stuck: set<WatchKey>) returns (errs: seq<Error>, ghost order: seq<WatchKey>)
      requires Linked() && Core(model)
      modifies Repr()
      ensures Linked() && Core(model) && Lists(order, IndexOf(old(model), c))
      ensures (model, Cleared(errs)) == Release(old(model), c, order, stuck)
      ensures channels == old(channels) && contexts == old(contexts) && stored == old(stored) && Repr() <= old(Repr())
    {
      hide *;
      LinkedKeys();
      LinkedOutside();
      IndexIs(model, c);
      ReleaseIsSweep(model, c, [], stuck);
      errs, order := [], [];
      if c !in consumerKeys {
        assert Lists([], {}) by { ListsNothing(); }
        return;
      }
      label before:
      var toRelease := Collect(consumerKeys[c], {});
      CallLinks@before();
      ReprShrinks@before();
      assert consumerKeys[c] - {} == consumerKeys[c];
      order := toRelease;
      ReleaseIsSweep(model, c, order, stuck);
      errs := ReleaseKeys(c, toRelease, stuck);
    }

    method ReleaseAll(c: Consumer, stuck: set<WatchKey>) returns (errs: seq<Error>, ghost order: seq<WatchKey>)
      requires Valid()
      modifies Repr()
      ensures Valid() && Lists(order, IndexOf(old(model), c))
      ensures (model, Cleared(errs)) == Release(old(model), c, order, stuck)
      ensures !exists k :: Holds(model, k, c)
      ensures channels == old(channels) && contexts == old(contexts) && stored == old(stored) && Repr() <= old(Repr())
    {
      hide Linked, Core, Indexed, Release, Repr;
      errs, order := ReleaseAllLocked(c, stuck);
      ReleaseClears(old(model), c, order, stuck);
    }

    /** The loop of EnsureWatchSet: the registrations so far and the keys newly added, up to the iteration, if any, that
        stops it. */
    method AddWatches(parent: Context, c: Consumer, reqs: seq<WatchRequest>, w: World)
      returns (regs: seq<WatchRegistration>, newlyAdded: seq<WatchKey>, stop: Option<Step>,
               ghost p: Phase, ghost n: nat)
      requires Linked() && Core(model)
      modifies Repr()
      ensures Linked() && Core(model) && n <= |reqs| && p == Progress(old(model), parent.id, c, reqs, w, n)
      ensures p.s == model && p.added == newlyAdded && (stop.None? <==> p.Going?)
      ensures stop.None? ==> n == |reqs| && AllRepresent(regs, p.handles, channels, contexts)
      ensures stop.Some? ==> Stops(stop.value, p)
      ensures fresh(Repr() - old(Repr()))
      ensures Grown(old(channels), channels) && Grown(old(contexts), contexts) && Grown(old(stored), stored)
    {
      hide *;
      ReprHas();
      regs, newlyAdded, stop, n := [], [], None, 0;
      p := Phase.Going(model, [], []);
      LoopBegins(model, parent.id, c, reqs, w, channels, contexts);
      GrownOne(old(channels), channels, 0);
      GrownOne(old(contexts), contexts, 0);
      GrownOne(old(stored), stored, 0);
      for i := 0 to |reqs|
        invariant Linked() && Core(model) && n == i
        invariant p.Going? && p == Progress(old(model), parent.id, c, reqs, w, i) && p.s == model
        invariant p.added == newlyAdded
        invariant AllRepresent(regs, p.handles, channels, contexts)
        invariant Grown(old(channels), channels) && Grown(old(contexts), contexts) && Grown(old(stored), stored)
        invariant forall x | x in Repr() && x !in old(Repr()) :: fresh(x)
      {
        LoopGoesOn(old(model), parent.id, c, reqs, w, i);
        ghost var channels1, contexts1, stored1, repr1 := channels, contexts, stored, Repr();
        var step := EnsureKey(parent, c, reqs[i], w.answers(i), p);
        assert forall x | x in Repr() && x !in repr1 :: !old(allocated(x));
        GrownTwice(old(channels), channels1, channels);
        GrownTwice(old(contexts), contexts1, contexts);
        GrownTwice(old(stored), stored1, stored);
        ghost var p' := Progress(old(model), parent.id, c, reqs, w, i + 1);
        StepCases(step, p, p', channels1, contexts1, channels, contexts, reqs[i].key, regs);
        p, n := p', i + 1;
        if !step.Got? {
          stop := Some(step);
          return;
        }
        regs := regs + [step.registration];
        if step.added {
          newlyAdded := newlyAdded + [reqs[i].key];
        }
      }
    }

    method EnsureWatchSet(parent: Context, c: Consumer, reqs: seq<WatchRequest>, w: World)
      returns (o: Outcome, ghost order: seq<WatchKey>)
      requires Valid()
      modifies Repr()
      ensures Valid() && Lists(order, Swept(old(model), c, reqs))
      ensures model == Ensure(old(model), parent.id, c, reqs, w, order).0
      ensures Reports(o, Ensure(old(model), parent.id, c, reqs, w, order).1, channels, contexts)
      ensures reqs != [] && !o.Registrations? ==>
                watches == old(watches) && Entries() == old(Entries()) && consumerKeys == old(consumerKeys)
      ensures fresh(Repr() - old(Repr()))
      ensures Grown(old(channels), channels) && Grown(old(contexts), contexts) && Grown(old(stored), stored)
    {
      hide *;
      ValidIs();
      ReprHas();
      ghost var s := model;
      if reqs == [] {
        SweptAll(s, c, reqs);
        var errs;
        errs, order := ReleaseAllLocked(c, w.stuck);
        o := NoRegistrations(errs);
        FinishCleared(s, parent.id, c, reqs, w, order, o, channels, contexts);
        GrownOne(old(channels), channels, 0);
        GrownOne(old(contexts), contexts, 0);
        GrownOne(old(stored), stored, 0);
        ThenValid();
        return;
      }
      var desired := Keys(reqs);
      var stale := [];
      LinkedKeys();
      SweptIs(s, c, reqs);
      if c in consumerKeys {
        stale := Collect(consumerKeys[c], desired);
      } else {
        ListsNothing();
      }
      CallLinks();
      ReprGrows();
      order := stale;
      ghost var repr1 := Repr();
      var regs, newlyAdded, stop, p, n := AddWatches(parent, c, reqs, w);
      ghost var repr2 := Repr();
      assert forall x | x in repr2 && x !in repr1 :: !old(allocated(x));
      assert forall x | x in repr2 && x !in old(Repr()) :: fresh(x);
      if stop.Some? {
        StopCases(stop.value, p);
        var errs := ReleaseKeys(c, newlyAdded, w.stuck);
        o := if stop.value.Threw? then Panic else NoRegistrations([stop.value.error] + errs);
        FinishFailed(s, parent.id, c, reqs, w, n, order, o, channels, contexts);
        EntriesRestored();
      } else {
        var errs := ReleaseKeys(c, stale, w.stuck);
        StoreKeys(c, desired);
        o := Registrations(regs, errs);
        FinishCommitted(s, parent.id, c, reqs, w, order, o, channels, contexts);
      }
      ThenValid();
    }

    /** The model's watches are back, and so are the registry's: the very entries, each with the handlers it had. */
    twostate lemma EntriesRestored()
      requires old(Linked()) && Linked() && SameIndexes(old(model), model)
      requires Grown(old(channels), channels) && Grown(old(contexts), contexts) && Grown(old(stored), stored)
      ensures watches == old(watches) && Entries() == old(Entries()) && consumerKeys == old(consumerKeys)
    {
      hide Core, Replay, Calls, ClosedNow, CancelledNow;
      MirrorsDetermine(old(Entries()), Entries(), model.watches, old(channels), channels, old(contexts), contexts);
      forall k | k in watches ensures k in old(watches) && watches[k] == old(watches)[k] {
        assert k in Entries() && Entries()[k].informer == watches[k].informer;
        assert k in old(Entries()) && old(Entries())[k].informer == old(watches)[k].informer;
      }
      assert watches.Keys == Entries().Keys == old(Entries()).Keys == old(watches).Keys;
    }

    /** A handle is served as the model says, with its parent context gone exactly if that or one above it is cancelled;
        and so exactly while its channel is open, and neither its informer's context nor any above that is cancelled. */
    lemma GetIndexerServes(r: WatchRegistration, h: Handle)
      requires Linked() && Represents(r, h, channels, contexts)
      ensures r.context.above == [r.context.parent] + r.context.parent.above
      ensures var s := model.(cancelled := if exists c | c in r.context.above :: c.cancelled then {h.parent} else {});
        GetIndexer(r) == if Serves(s, h) then Indexer(h.informer) else ErrWatchStopped
      ensures GetIndexer(r).Indexer? <==>
        !r.released.closed && !r.context.cancelled && forall c | c in r.context.above :: !c.cancelled
      ensures GetIndexer(r) == ErrWatchStopped <==>
        r.released.closed || r.context.cancelled || exists c | c in r.context.above :: c.cancelled
    {
      hide Core, Replay, Calls, Mirrors, Entries;
      assert h.channel in ClosedNow() <==> r.released.closed;
      assert h.informer in CancelledNow() <==> r.context.cancelled;
    }

    lemma ThenValid()
      requires Linked() && Inv(model)
      ensures Valid()
    {
    }

    lemma ValidIs()
      requires Valid()
      ensures Linked() && Core(model) && Inv(model)
    {
    }
  }

  /** The keys of a map or set, in the order in which Go ranges over it, without those in desired. */
  method Collect(current: set<WatchKey>, desired: set<WatchKey>) returns (stale: seq<WatchKey>)
    ensures Lists(stale, current - desired)
  {
    stale := [];
    var todo := current;
    while todo != {}
      invariant todo <= current && Lists(stale, (current - todo) - desired)
    {
      var key :| key in todo;
      assert key !in stale;
      todo := todo - {key};
      if key !in desired {
        stale := stale + [key];
      }
    }
  }

  method Keys(reqs: seq<WatchRequest>) returns (keys: set<WatchKey>)
    ensures keys == KeysOf(reqs)
  {
    keys := {};
    for i := 0 to |reqs|
      invariant keys == KeysOf(reqs[..i])
    {
      keys := keys + {reqs[i].key};
    }
    assert reqs[..|reqs|] == reqs;
  }

  // What the methods know of the functions they follow.

  lemma IndexIs(s: State, c: Consumer)
    ensures IndexOf(s, c) == if c in s.index then s.index[c] else {}
  {
  }

  lemma ListsNothing()
    ensures Lists([], {})
  {
  }

  lemma ReleaseIsSweep(s: State, c: Consumer, order: seq<WatchKey>, stuck: set<WatchKey>)
    ensures Release(s, c, order, stuck) ==
      (ReleaseFirst(s, c, order, |order|), Cleared(ReleaseErrors(s, c, order, stuck, |order|)))
    ensures Release(s, c, [], stuck) == (s, Cleared([]))
  {
  }

  lemma SweptAll(s: State, c: Consumer, reqs: seq<WatchRequest>)
    requires reqs == []
    ensures Swept(s, c, reqs) == IndexOf(s, c)
  {
  }

  lemma SweptIs(s: State, c: Consumer, reqs: seq<WatchRequest>)
    ensures Swept(s, c, reqs) == if c in s.index then s.index[c] - KeysOf(reqs) else {}
  {
  }

  lemma FinishCleared(s: State, parent: ContextId, c: Consumer, reqs: seq<WatchRequest>, w: World,
                      order: seq<WatchKey>, o: Outcome,
                      channels: map<nat, Channel>, contexts: map<nat, Context>)
    requires Inv(s) && reqs == [] && Lists(order, IndexOf(s, c)) && o.NoRegistrations?
    requires Release(s, c, order, w.stuck).1 == Cleared(o.errors)
    ensures Ensure(s, parent, c, reqs, w, order) == Release(s, c, order, w.stuck)
    ensures Inv(Ensure(s, parent, c, reqs, w, order).0)
    ensures Reports(o, Ensure(s, parent, c, reqs, w, order).1, channels, contexts)
  {
    hide Core, Indexed;
    ReleaseClears(s, c, order, w.stuck);
  }

  lemma LoopBegins(s: State, parent: ContextId, c: Consumer, reqs: seq<WatchRequest>, w: World,
                   channels: map<nat, Channel>, contexts: map<nat, Context>)
    ensures Progress(s, parent, c, reqs, w, 0) == Phase.Going(s, [], []) && AllRepresent([], [], channels, contexts)
  {
  }

  lemma LoopGoesOn(s: State, parent: ContextId, c: Consumer, reqs: seq<WatchRequest>, w: World, n: nat)
    requires n < |reqs| && Progress(s, parent, c, reqs, w, n).Going?
    ensures Progress(s, parent, c, reqs, w, n + 1) ==
      Iterate(Progress(s, parent, c, reqs, w, n), parent, c, reqs[n], w.answers(n))
  {
  }

  lemma StepCases(step: Step, p: Phase, p': Phase, channels: map<nat, Channel>, contexts: map<nat, Context>,
                  channels': map<nat, Channel>, contexts': map<nat, Context>, k: WatchKey, regs: seq<WatchRegistration>)
    requires p.Going? && StepReports(step, p, p', channels', contexts', k)
    requires AllRepresent(regs, p.handles, channels, contexts) && Grown(channels, channels')
    requires Grown(contexts, contexts')
    ensures step.Got? ==>
      p'.Going? && p'.added == (if step.added then p.added + [k] else p.added)
      && AllRepresent(regs + [step.registration], p'.handles, channels', contexts')
    ensures !step.Got? ==> !p'.Going? && Stops(step, p') && p'.added == p.added
  {
    if step.Got? {
      forall i | 0 <= i < |regs| + 1
        ensures Represents((regs + [step.registration])[i], p'.handles[i], channels', contexts')
      {
        if i < |regs| {
          assert p'.handles[i] == p.handles[i];
          assert Represents(regs[i], p.handles[i], channels, contexts);
        }
      }
    }
  }

  /** The iteration that stops the loop, and where the loop then is. */
  predicate Stops(step: Step, p: Phase) {
    match step
    case Got(_, _) => false
    case Lost(e) => p == Phase.Failing(p.s, p.added, e)
    case Threw => p == Phase.Panicking(p.s, p.added)
  }

  lemma StopCases(step: Step, p: Phase)
    requires Stops(step, p)
    ensures step.Lost? ==> p == Phase.Failing(p.s, p.added, step.error)
    ensures step.Threw? ==> p == Phase.Panicking(p.s, p.added)
    ensures !step.Got?
  {
  }

  lemma {:induction false} LoopStopped(s: State, parent: ContextId, c: Consumer, reqs: seq<WatchRequest>, w: World,
                                       n: nat, m: nat)
    requires n <= m <= |reqs| && !Progress(s, parent, c, reqs, w, n).Going?
    ensures Progress(s, parent, c, reqs, w, m) == Progress(s, parent, c, reqs, w, n)
  {
    if n < m {
      LoopStopped(s, parent, c, reqs, w, n, m - 1);
    }
  }

  lemma FinishFailed(s: State, parent: ContextId, c: Consumer, reqs: seq<WatchRequest>, w: World, n: nat,
                     order: seq<WatchKey>, o: Outcome,
                     channels: map<nat, Channel>, contexts: map<nat, Context>)
    requires Inv(s) && reqs != [] && n <= |reqs| && !Progress(s, parent, c, reqs, w, n).Going?
    requires var p := Progress(s, parent, c, reqs, w, n);
      o == if p.Panicking? then Panic
           else NoRegistrations([p.cause] + ReleaseErrors(p.s, c, p.added, w.stuck, |p.added|))
    ensures var p := Progress(s, parent, c, reqs, w, n);
      Ensure(s, parent, c, reqs, w, order).0 == ReleaseFirst(p.s, c, p.added, |p.added|)
    ensures Inv(Ensure(s, parent, c, reqs, w, order).0) && SameIndexes(s, Ensure(s, parent, c, reqs, w, order).0)
    ensures Reports(o, Ensure(s, parent, c, reqs, w, order).1, channels, contexts)
  {
    hide Core, Indexed, AnsweredUpTo, PanicsBefore;
    LoopStopped(s, parent, c, reqs, w, n, |reqs|);
    LoopOutcome(s, parent, c, reqs, w, |reqs|);
    FailureRestores(s, parent, c, reqs, w, order);
  }

  lemma FinishCommitted(s: State, parent: ContextId, c: Consumer, reqs: seq<WatchRequest>, w: World,
                        order: seq<WatchKey>, o: Outcome,
                        channels: map<nat, Channel>, contexts: map<nat, Context>)
    requires Inv(s) && reqs != [] && Lists(order, Swept(s, c, reqs)) && o.Registrations?
    requires var p := Progress(s, parent, c, reqs, w, |reqs|);
      p.Going? && o.errors == ReleaseErrors(p.s, c, order, w.stuck, |order|)
        && AllRepresent(o.regs, p.handles, channels, contexts)
    ensures var t := ReleaseFirst(Progress(s, parent, c, reqs, w, |reqs|).s, c, order, |order|);
      Ensure(s, parent, c, reqs, w, order).0 == t.(index := t.index[c := KeysOf(reqs)])
    ensures Inv(Ensure(s, parent, c, reqs, w, order).0)
    ensures Reports(o, Ensure(s, parent, c, reqs, w, order).1, channels, contexts)
  {
    hide Core, Indexed, AnsweredUpTo, PanicsBefore, Committed;
    var t := ReleaseFirst(Progress(s, parent, c, reqs, w, |reqs|).s, c, order, |order|);
    LoopOutcome(s, parent, c, reqs, w, |reqs|);
    SuccessCommits(s, parent, c, reqs, w, order);
  }

  lemma ReleaseStarts(s: State, c: Consumer, keys: seq<WatchKey>, stuck: set<WatchKey>)
    ensures ReleaseFirst(s, c, keys, 0) == s && ReleaseErrors(s, c, keys, stuck, 0) == []
  {
  }

  lemma ReleaseNext(s: State, c: Consumer, keys: seq<WatchKey>, stuck: set<WatchKey>, n: nat)
    requires n < |keys|
    ensures ReleaseFirst(s, c, keys, n + 1) == ReleaseWatch(ReleaseFirst(s, c, keys, n), keys[n], c)
    ensures ReleaseErrors(s, c, keys, stuck, n + 1) ==
      ReleaseErrors(s, c, keys, stuck, n) + ReleaseError(ReleaseFirst(s, c, keys, n), keys[n], c, stuck)
  {
  }

  lemma IterateIs(p: Phase, parent: ContextId, c: Consumer, w: WatchRequest, a: Answers)
    requires p.Going?
    ensures w.key in p.s.watches ==> Iterate(p, parent, c, w, a) == Attach(p.s, c, w, a, p.added, p.handles)
    ensures w.key !in p.s.watches ==>
      match StartWatch(p.s, parent, w.key, a)
      case StartOk(s') => w.key in s'.watches && Iterate(p, parent, c, w, a) == Attach(s', c, w, a, p.added, p.handles)
      case StartFailed(s', e) => Iterate(p, parent, c, w, a) == Phase.Failing(s', p.added, e)
      case StartPanicked(s') => Iterate(p, parent, c, w, a) == Phase.Panicking(s', p.added)
  {
  }

  lemma GrownTwice<V>(m: map<nat, V>, m1: map<nat, V>, m2: map<nat, V>)
    requires Grown(m, m1) && Grown(m1, m2)
    ensures Grown(m, m2)
  {
  }

  lemma StepReportsFrom(step: Step, p1: Phase, p: Phase, p': Phase, channels: map<nat, Channel>,
                        contexts: map<nat, Context>, k: WatchKey)
    requires p.Going? && p1.Going? && p1.added == p.added && p1.handles == p.handles
    requires StepReports(step, p1, p', channels, contexts, k)
    ensures StepReports(step, p, p', channels, contexts, k)
  {
  }

  lemma AttachIs(s: State, c: Consumer, w: WatchRequest, a: Answers, added: seq<WatchKey>, hs: seq<Handle>)
    requires w.key in s.watches
    ensures var k := w.key; var p' := Attach(s, c, w, a, added, hs);
      && (Holds(s, k, c) ==> p' == Going(s, added, hs + [HandleOf(s, k, c)]))
      && (!Holds(s, k, c) && a.attaches ==>
            var s' := AttachHandler(s, k, c, w.callback);
            Holds(s', k, c) && p' == Going(s', added + [k], hs + [HandleOf(s', k, c)]))
      && (!Holds(s, k, c) && !a.attaches ==>
            p' == Failing(if s.watches[k].handlers == map[] then StopWatch(s, k) else s, added, AttachFailed(k)))
  {
  }

  lemma GotReports(step: Step, p: Phase, s: State, k: WatchKey, h: Handle, channels: map<nat, Channel>,
                   contexts: map<nat, Context>)
    requires p.Going? && step.Got? && Represents(step.registration, h, channels, contexts)
    ensures
      var p' := Phase.Going(s, p.added + (if step.added then [k] else []), p.handles + [h]);
      StepReports(step, p, p', channels, contexts, k)
    ensures p.added + [] == p.added
  {
  }

  lemma LostReports(p: Phase, s: State, e: Error, channels: map<nat, Channel>, contexts: map<nat, Context>, k: WatchKey)
    requires p.Going?
    ensures StepReports(Lost(e), p, Failing(s, p.added, e), channels, contexts, k)
    ensures StepReports(Threw, p, Panicking(s, p.added), channels, contexts, k)
  {
  }

  lemma GrownOne<V>(m: map<nat, V>, m': map<nat, V>, i: nat)
    requires m' == m || (i !in m && i in m' && m' == m[i := m'[i]])
    ensures Grown(m, m')
  {
  }

  predicate Grown<V(==)>(m: map<nat, V>, m': map<nat, V>) {
    forall i | i in m :: i in m' && m'[i] == m[i]
  }

  lemma MirrorsDetermine(entries: map<WatchKey, EntryView>, entries': map<WatchKey, EntryView>,
                         watches: map<WatchKey, Entry>,
                         channels: map<nat, Channel>, channels': map<nat, Channel>,
                         contexts: map<nat, Context>, contexts': map<nat, Context>)
    requires Mirrors(entries, watches, channels, contexts) && Mirrors(entries', watches, channels', contexts')
    requires Grown(channels, channels') && Grown(contexts, contexts')
    ensures entries == entries'
  {
    forall k | k in watches ensures entries[k] == entries'[k] {
      assert EntryMirrors(entries[k], watches[k], channels, contexts)
        && EntryMirrors(entries'[k], watches[k], channels', contexts');
      forall c | c in watches[k].handlers ensures entries[k].handlers[c] == entries'[k].handlers[c] {
        assert HandlerMirrors(entries[k].handlers[c], watches[k].handlers[c], channels);
        assert HandlerMirrors(entries'[k].handlers[c], watches[k].handlers[c], channels');
      }
      assert entries[k].handlers == entries'[k].handlers;
    }
  }

  lemma MirrorsAttached(entries: map<WatchKey, EntryView>, watches: map<WatchKey, Entry>,
                        channels: map<nat, Channel>, contexts: map<nat, Context>, k: WatchKey, c: Consumer,
                        hr: HandlerRegistration)
    requires Mirrors(entries, watches, channels, contexts) && k in watches && hr.registration !in channels
    ensures k in entries
    ensures var e := entries[k].(handlers := entries[k].handlers[c := hr]);
      var m := watches[k].(handlers := watches[k].handlers[c := Handler(hr.registration, hr.callback)]);
      Mirrors(entries[k := e], watches[k := m], channels[hr.registration := hr.released], contexts)
  {
    var channels' := channels[hr.registration := hr.released];
    forall k' | k' in watches ensures EntryMirrors(entries[k'], watches[k'], channels', contexts) {
      assert EntryMirrors(entries[k'], watches[k'], channels, contexts);
      forall x | x in entries[k'].handlers
        ensures HandlerMirrors(entries[k'].handlers[x], watches[k'].handlers[x], channels')
      {
        assert HandlerMirrors(entries[k'].handlers[x], watches[k'].handlers[x], channels);
      }
    }
  }

  lemma MirrorsStarted(entries: map<WatchKey, EntryView>, watches: map<WatchKey, Entry>,
                       channels: map<nat, Channel>, contexts: map<nat, Context>, k: WatchKey, i: nat,
                       context: Context, parent: ContextId)
    requires Mirrors(entries, watches, channels, contexts) && k !in watches && i !in contexts && Under(context, parent)
    ensures Mirrors(entries[k := EntryView(i, context, map[])], watches[k := Entry(i, parent, map[])],
                    channels, contexts[i := context])
  {
  }

  lemma MirrorsStopped(entries: map<WatchKey, EntryView>, watches: map<WatchKey, Entry>,
                       channels: map<nat, Channel>, contexts: map<nat, Context>, k: WatchKey)
    requires Mirrors(entries, watches, channels, contexts)
    ensures Mirrors(entries - {k}, watches - {k}, channels, contexts)
  {
  }

  lemma MirrorsDropped(entries: map<WatchKey, EntryView>, s: State,
                       channels: map<nat, Channel>, contexts: map<nat, Context>, k: WatchKey, c: Consumer)
    requires Mirrors(entries, s.watches, channels, contexts) && Holds(s, k, c)
    ensures k in entries
    ensures var e := entries[k].(handlers := entries[k].handlers - {c});
      Mirrors(entries[k := e], DropHandler(s, k, c).watches, channels, contexts)
  {
    assert EntryMirrors(entries[k], s.watches[k], channels, contexts);
  }
}
