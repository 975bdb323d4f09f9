/** The registry over whole histories of calls: what the indexes, the clients and the handles handed out
    are after any number of calls, whatever failed or panicked on the way. */
module WatchRuns {
  import opened WatchModel
  import opened WatchLaws
  import opened WatchCalls

  datatype Op =
    | EnsureOp(parent: ContextId, consumer: Consumer, reqs: seq<WatchRequest>, world: World, order: seq<WatchKey>)
    | ReleaseOp(consumer: Consumer, stuck: set<WatchKey>, order: seq<WatchKey>)
    | CancelOp(parent: ContextId)       // somebody cancels a parent context

  function Apply(s: State, op: Op): (State, Result) {
    match op
    case EnsureOp(parent, c, reqs, w, order) => Ensure(s, parent, c, reqs, w, order)
    case ReleaseOp(c, stuck, order) => Release(s, c, order, stuck)
    case CancelOp(parent) => (s.(cancelled := s.cancelled + {parent}), Cleared([]))
  }

  /** The call ranges over the map it finds, in some order. */
  ghost predicate Orderly(s: State, op: Op) {
    match op
    case EnsureOp(_, c, reqs, _, order) => Lists(order, Swept(s, c, reqs))
    case ReleaseOp(c, _, order) => Lists(order, IndexOf(s, c))
    case CancelOp(_) => true
  }

  datatype Run = Run(states: seq<State>, ops: seq<Op>, results: seq<Result>)

  /** A history of a new registry; the mutex makes calls happen one after the other. */
  ghost predicate IsRun(r: Run) {
    && |r.states| == |r.ops| + 1 && |r.results| == |r.ops|
    && r.states[0] == Empty(r.states[0].releaser)
    && forall i | 0 <= i < |r.ops| ::
         Orderly(r.states[i], r.ops[i]) && Apply(r.states[i], r.ops[i]) == (r.states[i + 1], r.results[i])
  }

  /** The call asks for these keys and was granted them. */
  predicate Grants(op: Op, result: Result) {
    op.EnsureOp? && op.reqs != [] && result.Registered?
  }

  predicate Clears(op: Op) {
    op.ReleaseOp? || (op.EnsureOp? && op.reqs == [])
  }

  /** What each consumer holds, read off the calls and their results alone: the keys of its last granted
      call, and nothing after a release. */
  function Wanted(ops: seq<Op>, results: seq<Result>, n: nat): map<Consumer, set<WatchKey>>
    requires n <= |ops| == |results|
  {
    if n == 0 then map[]
    else
      var before := Wanted(ops, results, n - 1);
      var op := ops[n - 1];
      if Grants(op, results[n - 1]) then before[op.consumer := KeysOf(op.reqs)]
      else if Clears(op) then before - {op.consumer}
      else before
  }

  // ----- one step -----

  lemma StepKeeps(s: State, op: Op)
    requires Inv(s) && Orderly(s, op)
    ensures var (s', r) := Apply(s, op);
      && Inv(s') && s'.releaser == s.releaser && s.log <= s'.log && s.next <= s'.next && s.cancelled <= s'.cancelled
      && s'.index == (if Grants(op, r) then s.index[op.consumer := KeysOf(op.reqs)]
                      else if Clears(op) then s.index - {op.consumer} else s.index)
      && (!op.CancelOp? ==> OthersUntouched(s, s', op.consumer) && s'.cancelled == s.cancelled)
  {
    hide Core, Answered, IsFirst, Indexed, Panics;
    match op
    case EnsureOp(parent, c, reqs, w, order) =>
      if reqs == [] {
        ReleaseClears(s, c, order, w.stuck);
      } else if AnsweredUpTo(s, c, reqs, w, |reqs|) {
        SuccessCommits(s, parent, c, reqs, w, order);
        CommittedUntouched(s, Apply(s, op).0, parent, c, reqs);
      } else {
        FailureRestores(s, parent, c, reqs, w, order);
        SameUntouched(s, Apply(s, op).0, c);
      }
    case ReleaseOp(c, stuck, order) => ReleaseClears(s, c, order, stuck);
    case CancelOp(parent) => CancelKeeps(s, parent);
  }

  lemma SameUntouched(s: State, s': State, c: Consumer)
    requires SameIndexes(s, s')
    ensures OthersUntouched(s, s', c)
  {
    assert forall k, x :: Holds(s', k, x) <==> Holds(s, k, x);
    assert forall x :: IndexOf(s', x) == IndexOf(s, x);
  }

  lemma CancelKeeps(s: State, parent: ContextId)
    requires Inv(s)
    ensures Inv(s.(cancelled := s.cancelled + {parent}))
  {
    var s' := s.(cancelled := s.cancelled + {parent});
    assert forall k, c :: Holds(s', k, c) <==> Holds(s, k, c);
    assert forall k, c | Holds(s, k, c) :: ChannelOf(s', k, c) == ChannelOf(s, k, c);
    assert forall id :: Watched(s', id) == Watched(s, id);
    assert forall c :: IndexOf(s', c) == IndexOf(s, c);
  }

  // ----- refinement -----

  /** After any history the registry's index is the one the calls' results spell out. */
  lemma {:induction false} RunRefinesResults(r: Run, n: nat)
    requires IsRun(r) && n <= |r.ops|
    ensures Inv(r.states[n]) && r.states[n].releaser == r.states[0].releaser
    ensures r.states[n].index == Wanted(r.ops, r.results, n)
  {
    if n == 0 {
      EmptyInv(r.states[0].releaser);
    } else {
      RunRefinesResults(r, n - 1);
      hide Inv, OthersUntouched, Apply;
      StepKeeps(r.states[n - 1], r.ops[n - 1]);
    }
  }

  /** ... and so the handlers on the informers, and the informers there are: a key is watched if and only
      if some consumer's last granted set has it, under the handlers of exactly those consumers. */
  lemma RunHoldsExactlyWanted(r: Run, n: nat)
    requires IsRun(r) && n <= |r.ops|
    ensures var s, wanted := r.states[n], Wanted(r.ops, r.results, n);
      && (forall k, c :: Holds(s, k, c) <==> c in wanted && k in wanted[c])
      && (forall k :: k in s.watches <==> exists c :: c in wanted && k in wanted[c])
      && (forall c | c in wanted :: wanted[c] != {})
  {
    RunRefinesResults(r, n);
    hide Core;
    var s := r.states[n];
    forall k, c ensures Holds(s, k, c) <==> c in s.index && k in s.index[c] {
      assert k in IndexOf(s, c) <==> Holds(s, k, c);
    }
    forall k | k in s.watches ensures exists c :: c in s.index && k in s.index[c] {
      var c :| c in s.watches[k].handlers;
      assert Holds(s, k, c);
    }
    forall k, c | c in s.index && k in s.index[c] ensures k in s.watches {
      assert Holds(s, k, c);
    }
  }

  // ----- what the log adds up to -----

  lemma {:induction false} LedgerCounts(log: seq<Event>, id: Name)
    ensures Replay(log).acquired[id] == multiset(log)[Acquired(id)]
    ensures Replay(log).given[id] == multiset(log)[GivenBack(id)]
  {
    if log != [] {
      var past, e := log[..|log| - 1], log[|log| - 1];
      assert log == past + [e];
      LedgerCounts(past, id);
    }
  }

  /** A lawful log was lawful all along, and each event was allowed when it happened. */
  lemma {:induction false} LawfulPrefix(log: seq<Event>, m: nat)
    requires Lawful(log) && m <= |log|
    ensures Lawful(log[..m])
    ensures m < |log| ==> Allowed(Replay(log[..m]), log[m])
  {
    if m == |log| {
      assert log[..m] == log;
    } else if m < |log| - 1 {
      LawfulPrefix(log[..|log| - 1], m);
      assert log[..|log| - 1][..m] == log[..m];
    }
  }

  lemma {:induction false} LawfulGivesBackNoMore(log: seq<Event>, id: Name)
    requires Lawful(log)
    ensures Replay(log).given[id] <= Replay(log).acquired[id]
  {
    if log != [] {
      LawfulGivesBackNoMore(log[..|log| - 1], id);
    }
  }

  lemma {:induction false} LawfulClosesOnce(log: seq<Event>, h: nat)
    requires Lawful(log)
    ensures multiset(log)[Closed(h)] == if h in Replay(log).closed then 1 else 0
    ensures multiset(log)[Detached(h)] == if h in Replay(log).detached then 1 else 0
  {
    if log != [] {
      var past, e := log[..|log| - 1], log[|log| - 1];
      assert log == past + [e];
      LawfulClosesOnce(past, h);
    }
  }

  /** At every call boundary each identity has one outstanding client per watched key; at no moment, in
      the middle of calls included, has more been given back than was acquired. */
  lemma RunConservesClients(r: Run, n: nat, id: Name, m: nat)
    requires IsRun(r) && n <= |r.ops| && m <= |r.states[n].log|
    ensures var s := r.states[n];
      && (s.releaser ==> multiset(s.log)[Acquired(id)] == multiset(s.log)[GivenBack(id)] + |Watched(s, id)|)
      && (!s.releaser ==> multiset(s.log)[GivenBack(id)] == 0)
      && multiset(s.log[..m])[GivenBack(id)] <= multiset(s.log[..m])[Acquired(id)]
  {
    var s := r.states[n];
    RunRefinesResults(r, n);
    LedgerCounts(s.log, id);
    LedgerCounts(s.log[..m], id);
    LawfulPrefix(s.log, m);
    LawfulGivesBackNoMore(s.log[..m], id);
  }

  lemma Outstanding(s: State, id: Name)
    requires Core(s) && s.releaser
    ensures multiset(s.log)[Acquired(id)] == multiset(s.log)[GivenBack(id)] + |Watched(s, id)|
  {
    LedgerCounts(s.log, id);
  }

  /** A call that fails or panics has given back every client it acquired: each identity's balance is what it was. */
  lemma FailureKeepsClients(s: State, parent: ContextId, c: Consumer, reqs: seq<WatchRequest>, w: World,
                            order: seq<WatchKey>, id: Name)
    requires Inv(s) && s.releaser && reqs != [] && !AnsweredUpTo(s, c, reqs, w, |reqs|)
    ensures var s' := Ensure(s, parent, c, reqs, w, order).0;
      multiset(s'.log)[Acquired(id)] + multiset(s.log)[GivenBack(id)] ==
        multiset(s.log)[Acquired(id)] + multiset(s'.log)[GivenBack(id)]
  {
    hide Ensure, AnsweredUpTo, Core, Indexed;
    FailureRestores(s, parent, c, reqs, w, order);
    Outstanding(s, id);
    Outstanding(Ensure(s, parent, c, reqs, w, order).0, id);
  }

  /** Informers over a run: one is asked a client for, and started, only while its key has none; the
      informers started and not stopped are those of the watched keys, each its key's own. */
  lemma RunStartsWhatItKeeps(r: Run, n: nat, m: nat)
    requires IsRun(r) && n <= |r.ops| && m < |r.states[n].log|
    ensures var s := r.states[n]; var l := Replay(s.log); var past := Replay(s.log[..m]);
      && (s.log[m].Asked? ==> Idle(past, s.log[m].key))
      && (s.log[m].Started? ==> Idle(past, s.log[m].key))
      && (forall i | i in l.started ::
            i in l.stopped || (l.started[i] in s.watches && s.watches[l.started[i]].informer == i))
      && (forall k | k in s.watches :: s.watches[k].informer in l.started && s.watches[k].informer !in l.stopped)
  {
    RunRefinesResults(r, n);
    LawfulPrefix(r.states[n].log, m);
  }

  // ----- handles -----

  /** What is true for ever of a handle once it was returned. */
  ghost predicate Issued(s: State, h: Handle) {
    var l := Replay(s.log);
    && h.channel in l.attached && l.attached[h.channel] == (h.key, h.consumer)
    && (Holds(s, h.key, h.consumer) && ChannelOf(s, h.key, h.consumer) == h.channel ==>
          HandleOf(s, h.key, h.consumer) == h)
  }

  /** The registration behind h is the one the registry holds for h's key and consumer. */
  predicate StillHeld(s: State, h: Handle) {
    Holds(s, h.key, h.consumer) && s.watches[h.key].handlers[h.consumer].channel == h.channel
  }

  /** GetIndexer serves a handle if and only if its registration is still the one held and the parent
      context of its informer is not done. */
  lemma ServesIffHeld(s: State, h: Handle)
    requires Core(s) && Issued(s, h)
    ensures Serves(s, h) <==> StillHeld(s, h) && h.parent !in s.cancelled
  {
  }

  lemma {:induction false} LedgerGrows(log: seq<Event>, log': seq<Event>)
    requires log <= log' && Lawful(log')
    ensures var l, l' := Replay(log), Replay(log');
      && l.closed <= l'.closed && l.stopped <= l'.stopped
      && forall h | h in l.attached :: h in l'.attached && l'.attached[h] == l.attached[h]
    decreases |log'|
  {
    if |log| < |log'| {
      assert log <= log'[..|log'| - 1];
      LedgerGrows(log, log'[..|log'| - 1]);
    } else {
      assert log == log';
    }
  }

  /** A registration in place after a step was there before, unchanged, or is new. */
  lemma StepRenewsHandles(s: State, op: Op, k: WatchKey, c: Consumer)
    requires Inv(s) && Orderly(s, op)
    ensures var s' := Apply(s, op).0;
      Holds(s', k, c) ==> (Holds(s, k, c) && HandleOf(s', k, c) == HandleOf(s, k, c)) || s.next <= ChannelOf(s', k, c)
  {
    hide Core, Answered, IsFirst, Indexed, Panics;
    StepKeeps(s, op);
    if !op.CancelOp? && c == op.consumer {
      match op
      case EnsureOp(parent, _, reqs, w, order) =>
        if reqs == [] {
          ReleaseClears(s, c, order, w.stuck);
        } else if AnsweredUpTo(s, c, reqs, w, |reqs|) {
          SuccessCommits(s, parent, c, reqs, w, order);
          assert KeyCommitted(s, Apply(s, op).0, parent, c, KeysOf(reqs), k);
        } else {
          FailureRestores(s, parent, c, reqs, w, order);
        }
      case ReleaseOp(_, stuck, order) => ReleaseClears(s, c, order, stuck);
    }
  }

  lemma StepKeepsIssued(s: State, op: Op, h: Handle)
    requires Inv(s) && Orderly(s, op) && Issued(s, h)
    ensures Issued(Apply(s, op).0, h)
  {
    var s' := Apply(s, op).0;
    StepKeeps(s, op);
    StepRenewsHandles(s, op, h.key, h.consumer);
    hide OthersUntouched, Apply;
    LedgerGrows(s.log, s'.log);
  }

  /** The handles a call returns are issued in the state it leaves. */
  lemma StepIssues(s: State, op: Op, h: Handle)
    requires Inv(s) && Orderly(s, op) && var r := Apply(s, op).1; r.Registered? && h in r.handles
    ensures Issued(Apply(s, op).0, h) && StillHeld(Apply(s, op).0, h)
  {
    var (s', r) := Apply(s, op);
    assert Core(s') && exists k :: Holds(s', k, op.consumer) && h == HandleOf(s', k, op.consumer) by {
      hide Core, Answered, IsFirst, Indexed, Panics;
      if AnsweredUpTo(s, op.consumer, op.reqs, op.world, |op.reqs|) {
        SuccessCommits(s, op.parent, op.consumer, op.reqs, op.world, op.order);
        var i :| 0 <= i < |r.handles| && r.handles[i] == h;
        assert Holds(s', op.reqs[i].key, op.consumer);
      } else {
        FailureRestores(s, op.parent, op.consumer, op.reqs, op.world, op.order);
      }
    }
  }

  lemma {:induction false} RunKeepsIssued(r: Run, i: nat, n: nat, h: Handle)
    requires IsRun(r) && i < n <= |r.ops| && r.results[i].Registered? && h in r.results[i].handles
    ensures Issued(r.states[n], h)
  {
    hide Issued, StillHeld, Apply;
    RunRefinesResults(r, n - 1);
    if n == i + 1 {
      assert Apply(r.states[i], r.ops[i]) == (r.states[i + 1], r.results[i]);
      StepIssues(r.states[i], r.ops[i], h);
    } else {
      RunKeepsIssued(r, i, n - 1, h);
      StepKeepsIssued(r.states[n - 1], r.ops[n - 1], h);
    }
  }

  /** Over any run: a handle returned by call i is served after call n exactly when its registration is
      still the one held for its key and consumer and its parent context is not cancelled. */
  lemma RunServesIffHeld(r: Run, i: nat, n: nat, h: Handle)
    requires IsRun(r) && i < n <= |r.ops| && r.results[i].Registered? && h in r.results[i].handles
    ensures Serves(r.states[n], h) <==> StillHeld(r.states[n], h) && h.parent !in r.states[n].cancelled
  {
    RunRefinesResults(r, n);
    RunKeepsIssued(r, i, n, h);
    ServesIffHeld(r.states[n], h);
  }

  lemma StepStaysStopped(s: State, op: Op, h: Handle)
    requires Inv(s) && Orderly(s, op) && !Serves(s, h)
    ensures !Serves(Apply(s, op).0, h)
  {
    StepKeeps(s, op);
    hide OthersUntouched, Apply;
    LedgerGrows(s.log, Apply(s, op).0.log);
  }

  /** A handle that is not served is never served again, though its key be asked for again. */
  lemma {:induction false} RunStaysStopped(r: Run, n: nat, m: nat, h: Handle)
    requires IsRun(r) && n <= m <= |r.ops| && !Serves(r.states[n], h)
    ensures !Serves(r.states[m], h)
  {
    hide Serves, Inv, Apply, Orderly;
    if n < m {
      RunStaysStopped(r, n, m - 1, h);
      RunRefinesResults(r, m - 1);
      StepStaysStopped(r.states[m - 1], r.ops[m - 1], h);
    }
  }

  /** A call for one consumer leaves every other consumer's handles as they were. */
  lemma RunSparesOthers(r: Run, i: nat, n: nat, h: Handle)
    requires IsRun(r) && i < n < |r.ops| && r.results[i].Registered? && h in r.results[i].handles
    requires !r.ops[n].CancelOp? && r.ops[n].consumer != h.consumer
    ensures Serves(r.states[n + 1], h) <==> Serves(r.states[n], h)
  {
    hide Apply, Serves, Core;
    RunServesIffHeld(r, i, n, h);
    RunServesIffHeld(r, i, n + 1, h);
    RunRefinesResults(r, n);
    StepKeeps(r.states[n], r.ops[n]);
  }

  /** Each released channel is closed at most once over a whole run, and its handler detached once then. */
  lemma RunClosesOnce(r: Run, n: nat, channel: nat)
    requires IsRun(r) && n <= |r.ops|
    ensures multiset(r.states[n].log)[Closed(channel)] == multiset(r.states[n].log)[Detached(channel)] <= 1
  {
    RunRefinesResults(r, n);
    LawfulClosesOnce(r.states[n].log, channel);
  }

  // ----- commuting -----

  /** Who holds what, without serials. */
  function Holders(s: State): map<WatchKey, set<Consumer>> {
    map k | k in s.watches :: s.watches[k].handlers.Keys
  }

  /** The indexes agree, so one of them is enough. */
  lemma IndexDeterminesHolders(s: State, s': State)
    requires Indexed(s) && Indexed(s') && s.index == s'.index
    ensures Holders(s) == Holders(s')
  {
    forall k, c ensures Holds(s, k, c) <==> Holds(s', k, c) {
      assert k in IndexOf(s, c) <==> Holds(s, k, c);
      assert k in IndexOf(s', c) <==> Holds(s', k, c);
    }
    forall k ensures k in s.watches <==> k in s'.watches {
      if k in s.watches {
        var c :| c in s.watches[k].handlers;
        assert Holds(s', k, c);
      }
      if k in s'.watches {
        var c :| c in s'.watches[k].handlers;
        assert Holds(s, k, c);
      }
    }
    forall k | k in s.watches ensures s.watches[k].handlers.Keys == s'.watches[k].handlers.Keys {
      forall c ensures c in s.watches[k].handlers <==> c in s'.watches[k].handlers {
        assert Holds(s, k, c) <==> Holds(s', k, c);
      }
    }
  }

  ghost predicate AllGood(w: World) {
    forall i :: w.answers(i) == Answers(Client, Informer, true)
  }

  /** When everything outside goes well, an EnsureWatchSet sets the consumer's key set to what it asks for. */
  lemma GoodCallSets(s: State, op: Op)
    requires Inv(s) && op.EnsureOp? && Orderly(s, op) && AllGood(op.world)
    ensures var s' := Apply(s, op).0;
      && Inv(s') && OthersUntouched(s, s', op.consumer)
      && s'.index == if op.reqs == [] then s.index - {op.consumer} else s.index[op.consumer := KeysOf(op.reqs)]
  {
    StepKeeps(s, op);
    if op.reqs != [] {
      hide Core, OthersUntouched, Indexed, IsFirst;
      assert AnsweredUpTo(s, op.consumer, op.reqs, op.world, |op.reqs|);
      SuccessCommits(s, op.parent, op.consumer, op.reqs, op.world, op.order);
    }
  }

  /** The callback of the first request for k; later ones for the same key are ignored. */
  function FirstCallback(reqs: seq<WatchRequest>, k: WatchKey): Callback {
    if reqs == [] then 0 else if reqs[0].key == k then reqs[0].callback else FirstCallback(reqs[1..], k)
  }

  lemma {:induction false} FirstRequest(reqs: seq<WatchRequest>, k: WatchKey) returns (i: nat)
    requires exists j :: 0 <= j < |reqs| && reqs[j].key == k
    ensures i < |reqs| && IsFirst(reqs, i) && reqs[i].key == k && reqs[i].callback == FirstCallback(reqs, k)
  {
    if reqs[0].key == k {
      i := 0;
    } else {
      var j :| 0 <= j < |reqs| && reqs[j].key == k;
      assert reqs[1..][j - 1].key == k;
      i := FirstRequest(reqs[1..], k);
      i := i + 1;
    }
  }

  /** What a good call does to the callbacks of its consumer, and to the parent contexts of the informers. */
  ghost predicate CallbacksAre(s: State, s': State, c: Consumer, reqs: seq<WatchRequest>) {
    forall k | Holds(s', k, c) ::
      s'.watches[k].handlers[c].callback ==
        if Holds(s, k, c) then s.watches[k].handlers[c].callback else FirstCallback(reqs, k)
  }

  ghost predicate ParentsAre(s: State, s': State, parent: ContextId) {
    forall k | k in s'.watches :: s'.watches[k].parent == if k in s.watches then s.watches[k].parent else parent
  }

  lemma CommittedKeeps(s: State, s': State, parent: ContextId, c: Consumer, reqs: seq<WatchRequest>)
    requires Committed(s, s', parent, c, reqs)
    ensures CallbacksAre(s, s', c, reqs) && ParentsAre(s, s', parent)
  {
    forall k | Holds(s', k, c)
      ensures s'.watches[k].handlers[c].callback ==
                if Holds(s, k, c) then s.watches[k].handlers[c].callback else FirstCallback(reqs, k)
    {
      assert KeyCommitted(s, s', parent, c, KeysOf(reqs), k);
      if !Holds(s, k, c) {
        var i := FirstRequest(reqs, k);
      }
    }
    forall k | k in s'.watches ensures s'.watches[k].parent == if k in s.watches then s.watches[k].parent else parent {
      assert KeyCommitted(s, s', parent, c, KeysOf(reqs), k);
    }
  }

  lemma ReleasedKeeps(s: State, s': State, parent: ContextId, c: Consumer)
    requires Indexed(s') && OthersUntouched(s, s', c) && forall k :: !Holds(s', k, c)
    ensures CallbacksAre(s, s', c, []) && ParentsAre(s, s', parent)
  {
    forall k | k in s'.watches ensures k in s.watches && s'.watches[k].parent == s.watches[k].parent {
      var x :| x in s'.watches[k].handlers;
      assert Holds(s', k, x);
      assert HandleOf(s', k, x) == HandleOf(s, k, x);
    }
  }

  /** The parent context of k's informer after a and then b, when mid is what a leaves. */
  function ParentAfter(s: State, mid: State, a: Op, b: Op, k: WatchKey): ContextId
    requires a.EnsureOp? && b.EnsureOp?
  {
    if k !in mid.watches then b.parent else if k in s.watches then s.watches[k].parent else a.parent
  }

  lemma GoodCallKeeps(s: State, op: Op)
    requires Inv(s) && op.EnsureOp? && Orderly(s, op) && AllGood(op.world)
    ensures var s' := Apply(s, op).0; CallbacksAre(s, s', op.consumer, op.reqs) && ParentsAre(s, s', op.parent)
  {
    hide Core, OthersUntouched, Indexed, IsFirst, Committed, CallbacksAre, ParentsAre;
    if op.reqs == [] {
      ReleaseClears(s, op.consumer, op.order, op.world.stuck);
      ReleasedKeeps(s, Apply(s, op).0, op.parent, op.consumer);
    } else {
      assert AnsweredUpTo(s, op.consumer, op.reqs, op.world, |op.reqs|);
      SuccessCommits(s, op.parent, op.consumer, op.reqs, op.world, op.order);
      CommittedKeeps(s, Apply(s, op).0, op.parent, op.consumer, op.reqs);
    }
  }

  /** Who holds what with which callback. */
  ghost predicate SameCallbacks(s: State, s': State) {
    forall k, c | Holds(s, k, c) ::
      Holds(s', k, c) && s'.watches[k].handlers[c].callback == s.watches[k].handlers[c].callback
  }

  /** The callbacks in t, which a good call of y makes of s1, which a good call of x made of s. */
  lemma CallbacksCompose(s: State, s1: State, t: State, x: Consumer, y: Consumer, xs: seq<WatchRequest>,
                         ys: seq<WatchRequest>,
                         k: WatchKey, c: Consumer)
    requires x != y && Holds(t, k, c)
    requires OthersUntouched(s, s1, x) && CallbacksAre(s, s1, x, xs) && OthersUntouched(s1, t, y)
    requires CallbacksAre(s1, t, y, ys)
    ensures t.watches[k].handlers[c].callback ==
              if Holds(s, k, c) then s.watches[k].handlers[c].callback else FirstCallback(if c == x then xs else ys, k)
    ensures c != x && c != y ==> Holds(s, k, c)
  {
    if c != y { assert Holds(s1, k, c) && t.watches[k].handlers[c] == s1.watches[k].handlers[c]; }
    if c != x { assert Holds(s1, k, c) <==> Holds(s, k, c); }
  }

  lemma CallbacksCommute(s: State, sa: State, sb: State, ab: State, ba: State, a: Op, b: Op)
    requires a.EnsureOp? && b.EnsureOp? && a.consumer != b.consumer && Holders(ab) == Holders(ba)
    requires OthersUntouched(s, sa, a.consumer) && CallbacksAre(s, sa, a.consumer, a.reqs)
    requires OthersUntouched(sa, ab, b.consumer) && CallbacksAre(sa, ab, b.consumer, b.reqs)
    requires OthersUntouched(s, sb, b.consumer) && CallbacksAre(s, sb, b.consumer, b.reqs)
    requires OthersUntouched(sb, ba, a.consumer) && CallbacksAre(sb, ba, a.consumer, a.reqs)
    ensures SameCallbacks(ab, ba)
  {
    hide OthersUntouched, CallbacksAre;
    forall k, c | Holds(ab, k, c)
      ensures Holds(ba, k, c) && ba.watches[k].handlers[c].callback == ab.watches[k].handlers[c].callback
    {
      assert k in Holders(ba) && c in Holders(ba)[k] by { assert k in Holders(ab) && c in Holders(ab)[k]; }
      CallbacksCompose(s, sa, ab, a.consumer, b.consumer, a.reqs, b.reqs, k, c);
      CallbacksCompose(s, sb, ba, b.consumer, a.consumer, b.reqs, a.reqs, k, c);
    }
  }

  lemma ParentsCommute(s: State, sa: State, sb: State, ab: State, ba: State, a: Op, b: Op)
    requires a.EnsureOp? && b.EnsureOp? && Holders(ab) == Holders(ba)
    requires ParentsAre(s, sa, a.parent) && ParentsAre(sa, ab, b.parent)
    requires ParentsAre(s, sb, b.parent) && ParentsAre(sb, ba, a.parent)
    ensures forall k | k in ab.watches :: ab.watches[k].parent == ParentAfter(s, sa, a, b, k)
    ensures a.parent == b.parent && (forall k | k in s.watches :: s.watches[k].parent == a.parent) ==>
              forall k | k in ab.watches :: k in ba.watches && ab.watches[k].parent == ba.watches[k].parent
  {
    assert forall k | k in ab.watches :: k in Holders(ab) && k in Holders(ba);
  }

  /** Calls for distinct consumers commute on who holds what with which callback. Each informer keeps the parent context
      of the call that started it, so on these they commute when one context is behind all: what the registry watches
      already, and both calls. */
  lemma GoodCallsCommute(s: State, a: Op, b: Op)
    requires Inv(s) && a.EnsureOp? && b.EnsureOp? && a.consumer != b.consumer
    requires AllGood(a.world) && AllGood(b.world) && Orderly(s, a) && Orderly(s, b)
    ensures var ab := Apply(Apply(s, a).0, b).0; var ba := Apply(Apply(s, b).0, a).0;
      && Orderly(Apply(s, a).0, b) && Orderly(Apply(s, b).0, a)
      && ab.index == ba.index && Holders(ab) == Holders(ba) && SameCallbacks(ab, ba)
      && (forall k | k in ab.watches :: ab.watches[k].parent == ParentAfter(s, Apply(s, a).0, a, b, k))
      && (a.parent == b.parent && (forall k | k in s.watches :: s.watches[k].parent == a.parent) ==>
            forall k | k in ab.watches :: k in ba.watches && ab.watches[k].parent == ba.watches[k].parent)
  {
    hide Core, Indexed, Apply, CallbacksAre, ParentsAre, SameCallbacks, ParentAfter, Holders, AllGood;
    var sa, sb := Apply(s, a).0, Apply(s, b).0;
    GoodCallSets(s, a);
    GoodCallSets(s, b);
    assert IndexOf(sa, b.consumer) == IndexOf(s, b.consumer) && IndexOf(sb, a.consumer) == IndexOf(s, a.consumer);
    hide OthersUntouched;
    GoodCallSets(sa, b);
    GoodCallSets(sb, a);
    var ab, ba := Apply(sa, b).0, Apply(sb, a).0;
    assert ab.index == ba.index;
    IndexDeterminesHolders(ab, ba);
    GoodCallKeeps(s, a);
    GoodCallKeeps(s, b);
    GoodCallKeeps(sa, b);
    GoodCallKeeps(sb, a);
    CallbacksCommute(s, sa, sb, ab, ba, a, b);
    ParentsCommute(s, sa, sb, ab, ba, a, b);
  }
}
