/** What one call to the registry amounts to: the outcome of EnsureWatchSet, exactly, and that a call that
    fails or panics leaves both indexes as they were. */
module WatchCalls {
  import opened WatchModel
  import opened WatchLaws

  // ----- releasing -----

  /** The watches once c has let go of keys: its handlers are gone, and so are the entries left without any. */
  function Pruned(watches: map<WatchKey, Entry>, c: Consumer, keys: set<WatchKey>): map<WatchKey, Entry> {
    map k | k in watches && !(k in keys && watches[k].handlers.Keys == {c}) ::
      if k in keys then watches[k].(handlers := watches[k].handlers - {c}) else watches[k]
  }

  function Unindexed(index: map<Consumer, set<WatchKey>>, c: Consumer, keys: set<WatchKey>)
    : map<Consumer, set<WatchKey>>
  {
    if c !in index then index
    else if index[c] - keys == {} then index - {c}
    else index[c := index[c] - keys]
  }

  function ToSet(keys: seq<WatchKey>): set<WatchKey> {
    set k | k in keys
  }

  predicate Distinct(keys: seq<WatchKey>) {
    forall i, j | 0 <= i < j < |keys| :: keys[i] != keys[j]
  }

  lemma PruneOne(s: State, k: WatchKey, c: Consumer)
    requires Holds(s, k, c)
    ensures var s' := ReleaseWatch(s, k, c);
      && s'.watches == Pruned(s.watches, c, {k}) && s'.index == Unindexed(s.index, c, {k})
      && s'.releaser == s.releaser && s'.cancelled == s.cancelled && s'.next == s.next && s.log <= s'.log
  {
    var hs := s.watches[k].handlers;
    assert (hs - {c}).Keys == hs.Keys - {c};
    if hs.Keys == {c} {
      assert hs - {c} == map[];
    } else {
      assert hs.Keys - {c} != {} by { assert hs.Keys == {c} + (hs.Keys - {c}); }
    }
  }

  lemma PruneMore(watches: map<WatchKey, Entry>, c: Consumer, keys: set<WatchKey>, k: WatchKey)
    requires k !in keys
    ensures Pruned(Pruned(watches, c, keys), c, {k}) == Pruned(watches, c, keys + {k})
  {
  }

  lemma UnindexMore(index: map<Consumer, set<WatchKey>>, c: Consumer, keys: set<WatchKey>, k: WatchKey)
    ensures Unindexed(Unindexed(index, c, keys), c, {k}) == Unindexed(index, c, keys + {k})
  {
    if c in index {
      assert index[c] - keys - {k} == index[c] - (keys + {k});
      assert index[c] - keys == {} ==> index[c] - keys - {k} == {};
    }
  }

  /** The closed form of a sequence of releases: it depends on the set of keys and not on their order. */
  lemma {:induction false} ReleasesPrune(s: State, c: Consumer, keys: seq<WatchKey>, n: nat)
    requires n <= |keys| && Distinct(keys) && forall k | k in keys :: Holds(s, k, c)
    requires c in s.index ==> s.index[c] != {}
    ensures var s' := ReleaseFirst(s, c, keys, n); var gone := ToSet(keys[..n]);
      && s'.watches == Pruned(s.watches, c, gone) && s'.index == Unindexed(s.index, c, gone)
      && s'.releaser == s.releaser && s'.cancelled == s.cancelled && s'.next == s.next && s.log <= s'.log
    ensures Core(s) ==> Core(ReleaseFirst(s, c, keys, n))
  {
    if n == 0 {
      assert ToSet(keys[..0]) == {};
      assert Pruned(s.watches, c, {}) == s.watches;
      assert c in s.index ==> s.index[c] - {} == s.index[c];
    } else {
      ReleasesPrune(s, c, keys, n - 1);
      var k, gone := keys[n - 1], ToSet(keys[..n - 1]);
      var r := ReleaseFirst(s, c, keys, n - 1);
      assert keys[..n] == keys[..n - 1] + [k];
      assert ToSet(keys[..n]) == gone + {k};
      forall j | 0 <= j < n - 1 ensures keys[j] != k {
      }
      assert k in keys && k !in gone;
      assert Holds(s, k, c);
      assert Holds(r, k, c);
      PruneOne(r, k, c);
      PruneMore(s.watches, c, gone, k);
      UnindexMore(s.index, c, gone, k);
      if Core(s) { ReleaseKeepsCore(r, k, c); }
    }
  }

  // ----- adding -----

  predicate IsFirst(reqs: seq<WatchRequest>, i: nat)
    requires i < |reqs|
  {
    forall j | 0 <= j < i :: reqs[j].key != reqs[i].key
  }

  /** Everything the code outside has to answer for consumer c to get hold of key k goes well. */
  predicate Answered(s: State, c: Consumer, k: WatchKey, a: Answers) {
    Holds(s, k, c) || ((k in s.watches || (a.client.Client? && a.informer.Informer?)) && a.attaches)
  }

  predicate AnsweredUpTo(s: State, c: Consumer, reqs: seq<WatchRequest>, w: World, n: nat)
    requires n <= |reqs|
  {
    forall i | 0 <= i < n && IsFirst(reqs, i) :: Answered(s, c, reqs[i].key, w.answers(i))
  }

  /** Key k was added to in a call that started in s0: new handler, and for a new entry a new informer. */
  predicate AddedSince(s0: State, s: State, parent: ContextId, c: Consumer, k: WatchKey) {
    && Holds(s, k, c) && s0.next <= s.watches[k].handlers[c].channel
    && (k !in s0.watches ==> s.watches[k].parent == parent && s0.next <= s.watches[k].informer)
  }

  /** In the middle of the loop: take c off the keys in added, and the watches are those of s0. */
  ghost predicate Adding(s0: State, s: State, parent: ContextId, c: Consumer, added: set<WatchKey>) {
    && s.index == s0.index && s.releaser == s0.releaser && s.cancelled == s0.cancelled
    && s0.next <= s.next && s0.log <= s.log
    && Pruned(s.watches, c, added) == s0.watches
    && forall k | k in added :: AddedSince(s0, s, parent, c, k)
  }

  predicate FirstCallbacks(s: State, c: Consumer, reqs: seq<WatchRequest>, added: set<WatchKey>, n: nat)
    requires n <= |reqs|
  {
    forall i | 0 <= i < n && IsFirst(reqs, i) && reqs[i].key in added ::
      Holds(s, reqs[i].key, c) && s.watches[reqs[i].key].handlers[c].callback == reqs[i].callback
  }

  predicate HandlesAre(s: State, c: Consumer, reqs: seq<WatchRequest>, handles: seq<Handle>) {
    && |handles| <= |reqs|
    && forall i | 0 <= i < |handles| :: Holds(s, reqs[i].key, c) && handles[i] == HandleOf(s, reqs[i].key, c)
  }

  ghost predicate PhaseIs(s0: State, p: Phase, parent: ContextId, c: Consumer, reqs: seq<WatchRequest>, n: nat)
    requires n <= |reqs|
  {
    && Core(p.s) && Distinct(p.added) && Adding(s0, p.s, parent, c, ToSet(p.added))
    && (forall k | k in p.added :: exists i | 0 <= i < n :: reqs[i].key == k)
    && (p.Going? ==> HandlesAre(p.s, c, reqs, p.handles) && |p.handles| == n
                     && FirstCallbacks(p.s, c, reqs, ToSet(p.added), n))
  }

  /** Taking back what was just added to a key, held or new, leaves the watches there were. */
  lemma PruneAdded(watches: map<WatchKey, Entry>, c: Consumer, keys: set<WatchKey>, k: WatchKey, entry: Entry)
    requires k !in keys && c in entry.handlers
    requires if k in watches then entry.(handlers := entry.handlers - {c}) == watches[k] && watches[k].handlers != map[]
      else entry.handlers.Keys == {c}
    ensures Pruned(watches[k := entry], c, keys + {k}) == Pruned(watches, c, keys)
  {
    if k in watches {
      assert (entry.handlers - {c}).Keys == entry.handlers.Keys - {c};
      var c' :| c' in watches[k].handlers;
      assert c' in entry.handlers - {c};
    }
  }

  lemma PruneKeeps(watches: map<WatchKey, Entry>, c: Consumer, keys: set<WatchKey>, k: WatchKey)
    requires k !in keys
    ensures k in Pruned(watches, c, keys) <==> k in watches
    ensures k in watches ==> Pruned(watches, c, keys)[k] == watches[k]
  {
  }

  /** A failed call to the outside panics: ClientFor, or the InformerFunc after it. */
  predicate Panics(s: State, k: WatchKey, a: Answers) {
    k !in s.watches && (a.client.ClientPanic? || (a.client.Client? && a.informer.InformerPanic?))
  }

  /** What holds of a request's key when the loop comes to it. */
  lemma AtKey(s0: State, p: Phase, parent: ContextId, c: Consumer, reqs: seq<WatchRequest>, n: nat)
    requires n < |reqs| && p.Going? && PhaseIs(s0, p, parent, c, reqs, n) && Indexed(s0)
    ensures var k := reqs[n].key;
      && (k in ToSet(p.added) ==> Holds(p.s, k, c))
      && (k !in ToSet(p.added) ==> (k in p.s.watches <==> k in s0.watches) && (Holds(p.s, k, c) <==> Holds(s0, k, c)))
      && (k in p.s.watches && !Holds(p.s, k, c) ==> p.s.watches[k].handlers != map[])
      && (IsFirst(reqs, n) ==> k !in ToSet(p.added))
      && (!IsFirst(reqs, n) ==> Holds(p.s, k, c))
  {
    var k := reqs[n].key;
    if k !in ToSet(p.added) {
      PruneKeeps(p.s.watches, c, ToSet(p.added), k);
    }
    if !IsFirst(reqs, n) {
      var j :| 0 <= j < n && reqs[j].key == k;
      assert Holds(p.s, reqs[j].key, c);
    }
  }

  /** The log has grown, and nothing else has changed. */
  lemma StillAdding(s0: State, s: State, s': State, parent: ContextId, c: Consumer, added: set<WatchKey>)
    requires Adding(s0, s, parent, c, added)
    requires s'.watches == s.watches && s'.index == s.index && s'.releaser == s.releaser && s'.cancelled == s.cancelled
    requires s.next <= s'.next && s.log <= s'.log
    ensures Adding(s0, s', parent, c, added)
  {
  }

  /** One more key, held by nobody or by others only, has got c's handler. */
  lemma AddingOne(s0: State, s: State, s': State, parent: ContextId, c: Consumer, added: seq<WatchKey>, k: WatchKey)
    requires Adding(s0, s, parent, c, ToSet(added)) && Distinct(added) && !Holds(s, k, c)
    requires k in s.watches ==> s.watches[k].handlers != map[]
    requires k in s'.watches && s'.watches == s.watches[k := s'.watches[k]]
    requires c in s'.watches[k].handlers && s.next <= s'.watches[k].handlers[c].channel
    requires if k in s.watches then s'.watches[k] == s.watches[k].(handlers := s'.watches[k].handlers) &&
                                    s'.watches[k].handlers - {c} == s.watches[k].handlers
      else s'.watches[k].parent == parent && s.next <= s'.watches[k].informer && s'.watches[k].handlers.Keys == {c}
    requires s'.index == s.index && s'.releaser == s.releaser && s'.cancelled == s.cancelled
    requires s.next <= s'.next && s.log <= s'.log
    ensures Adding(s0, s', parent, c, ToSet(added + [k])) && Distinct(added + [k])
  {
    assert ToSet(added + [k]) == ToSet(added) + {k};
    assert k !in added;
    PruneAdded(s.watches, c, ToSet(added), k, s'.watches[k]);
    PruneKeeps(s.watches, c, ToSet(added), k);
    forall k' | k' in ToSet(added) ensures AddedSince(s0, s', parent, c, k') {
      assert AddedSince(s0, s, parent, c, k');
    }
  }

  lemma HandlesGrow(s: State, s': State, k: WatchKey, c: Consumer, reqs: seq<WatchRequest>, handles: seq<Handle>)
    requires HandlesAre(s, c, reqs, handles) && |handles| < |reqs| && reqs[|handles|].key == k
    requires !Holds(s, k, c) && Holds(s', k, c)
    requires forall k' | k' != k && k' in s.watches :: k' in s'.watches && s'.watches[k'] == s.watches[k']
    ensures HandlesAre(s', c, reqs, handles + [HandleOf(s', k, c)])
  {
  }

  lemma CallbacksGrow(s: State, s': State, k: WatchKey, c: Consumer, reqs: seq<WatchRequest>, added: set<WatchKey>,
                      n: nat)
    requires n < |reqs| && FirstCallbacks(s, c, reqs, added, n) && reqs[n].key == k
    requires forall i | 0 <= i < n :: reqs[i].key != k
    requires Holds(s', k, c) && s'.watches[k].handlers[c].callback == reqs[n].callback
    requires forall k' | k' != k && k' in s.watches :: k' in s'.watches && s'.watches[k'] == s.watches[k']
    ensures FirstCallbacks(s', c, reqs, added + {k}, n + 1)
  {
  }

  /** Request n has given c a handler on its key: from p.s to s', the key's entry is new or has one more. */
  lemma AttachedPhase(s0: State, p: Phase, s': State, parent: ContextId, c: Consumer, reqs: seq<WatchRequest>, n: nat)
    requires n < |reqs| && p.Going? && PhaseIs(s0, p, parent, c, reqs, n) && Indexed(s0)
    requires !Holds(p.s, reqs[n].key, c) && Core(s') && Holds(s', reqs[n].key, c)
    requires s'.watches[reqs[n].key].handlers[c].callback == reqs[n].callback
    requires Adding(s0, s', parent, c, ToSet(p.added + [reqs[n].key])) && Distinct(p.added + [reqs[n].key])
    requires s'.watches == p.s.watches[reqs[n].key := s'.watches[reqs[n].key]]
    ensures var k := reqs[n].key;
      PhaseIs(s0, Going(s', p.added + [k], p.handles + [HandleOf(s', k, c)]), parent, c, reqs, n + 1)
  {
    hide Core;
    var k := reqs[n].key;
    var added := p.added + [k];
    assert IsFirst(reqs, n) by { AtKey(s0, p, parent, c, reqs, n); }
    assert ToSet(added) == ToSet(p.added) + {k};
    HandlesGrow(p.s, s', k, c, reqs, p.handles);
    CallbacksGrow(p.s, s', k, c, reqs, ToSet(p.added), n);
    forall x | x in added ensures exists i | 0 <= i < n + 1 :: reqs[i].key == x {
      if x == k { assert reqs[n].key == x; }
    }
  }

  lemma StoppedPhase(s0: State, p: Phase, p': Phase, parent: ContextId, c: Consumer, reqs: seq<WatchRequest>, n: nat)
    requires n < |reqs| && PhaseIs(s0, p, parent, c, reqs, n)
    requires !p'.Going? && p'.added == p.added && Core(p'.s)
    requires p.s.next <= p'.s.next && p.s.log <= p'.s.log
    requires p'.s == p.s.(log := p'.s.log, next := p'.s.next)
    ensures PhaseIs(s0, p', parent, c, reqs, n + 1)
  {
    hide Core;
    StillAdding(s0, p.s, p'.s, parent, c, ToSet(p.added));
  }

  lemma WatchedStep(s0: State, p: Phase, parent: ContextId, c: Consumer, reqs: seq<WatchRequest>, a: Answers, n: nat)
    requires n < |reqs| && p.Going? && PhaseIs(s0, p, parent, c, reqs, n) && Indexed(s0)
    requires reqs[n].key in p.s.watches && !Holds(p.s, reqs[n].key, c)
    ensures PhaseIs(s0, Iterate(p, parent, c, reqs[n], a), parent, c, reqs, n + 1)
  {
    hide Core;
    var k := reqs[n].key;
    AtKey(s0, p, parent, c, reqs, n);
    if a.attaches {
      var s' := AttachHandler(p.s, k, c, reqs[n].callback);
      AttachKeepsCore(p.s, k, c, reqs[n].callback);
      AddingOne(s0, p.s, s', parent, c, p.added, k);
      AttachedPhase(s0, p, s', parent, c, reqs, n);
    } else {
      StoppedPhase(s0, p, Iterate(p, parent, c, reqs[n], a), parent, c, reqs, n);
    }
  }

  lemma StartedStep(s0: State, p: Phase, s: State, parent: ContextId, c: Consumer, reqs: seq<WatchRequest>, n: nat)
    requires n < |reqs| && p.Going? && PhaseIs(s0, p, parent, c, reqs, n) && Indexed(s0)
    requires reqs[n].key !in p.s.watches && Core(s) && p.s.log <= s.log && p.s.next < s.next
    requires s == p.s.(watches := p.s.watches[reqs[n].key := Entry(p.s.next, parent, map[])],
                       next := s.next, log := s.log)
    ensures var k := reqs[n].key; var s' := AttachHandler(s, k, c, reqs[n].callback);
      PhaseIs(s0, Going(s', p.added + [k], p.handles + [HandleOf(s', k, c)]), parent, c, reqs, n + 1)
    ensures PhaseIs(s0, Failing(StopWatch(s, reqs[n].key), p.added, AttachFailed(reqs[n].key)), parent, c, reqs, n + 1)
  {
    hide Core;
    var k := reqs[n].key;
    var s' := AttachHandler(s, k, c, reqs[n].callback);
    assert Core(s') by { AttachKeepsCore(s, k, c, reqs[n].callback); }
    AddingOne(s0, p.s, s', parent, c, p.added, k);
    AttachedPhase(s0, p, s', parent, c, reqs, n);
    assert Core(StopWatch(s, k)) by { StopKeepsCore(s, k); }
    assert StopWatch(s, k).watches == p.s.watches;
    StoppedPhase(s0, p, Failing(StopWatch(s, k), p.added, AttachFailed(k)), parent, c, reqs, n);
  }

  lemma UnwatchedStep(s0: State, p: Phase, parent: ContextId, c: Consumer, reqs: seq<WatchRequest>, a: Answers, n: nat)
    requires n < |reqs| && p.Going? && PhaseIs(s0, p, parent, c, reqs, n) && Indexed(s0)
    requires reqs[n].key !in p.s.watches
    ensures PhaseIs(s0, Iterate(p, parent, c, reqs[n], a), parent, c, reqs, n + 1)
  {
    hide Core;
    var r := StartWatch(p.s, parent, reqs[n].key, a);
    assert Core(r.s) by { StartKeepsCore(p.s, parent, reqs[n].key, a); }
    if r.StartOk? {
      StartedStep(s0, p, r.s, parent, c, reqs, n);
    } else {
      StoppedPhase(s0, p, Iterate(p, parent, c, reqs[n], a), parent, c, reqs, n);
    }
  }

  /** One iteration: it goes on exactly when its key is held or everything outside answers well. */
  lemma IterationStep(s0: State, p: Phase, parent: ContextId, c: Consumer, reqs: seq<WatchRequest>, a: Answers, n: nat)
    requires n < |reqs| && p.Going? && PhaseIs(s0, p, parent, c, reqs, n) && Indexed(s0)
    ensures var p' := Iterate(p, parent, c, reqs[n], a); var k := reqs[n].key;
      && PhaseIs(s0, p', parent, c, reqs, n + 1)
      && (p'.Going? <==> (IsFirst(reqs, n) ==> Answered(s0, c, k, a)))
      && (p'.Panicking? <==> IsFirst(reqs, n) && Panics(s0, k, a))
  {
    hide Core;
    var k := reqs[n].key;
    var p' := Iterate(p, parent, c, reqs[n], a);
    AtKey(s0, p, parent, c, reqs, n);
    assert PhaseIs(s0, p', parent, c, reqs, n + 1) by {
      if k !in p.s.watches {
        UnwatchedStep(s0, p, parent, c, reqs, a, n);
      } else if !Holds(p.s, k, c) {
        WatchedStep(s0, p, parent, c, reqs, a, n);
      }
    }
  }

  lemma LoopStarts(s: State, parent: ContextId, c: Consumer, reqs: seq<WatchRequest>)
    requires Core(s)
    ensures PhaseIs(s, Going(s, [], []), parent, c, reqs, 0)
  {
    assert Pruned(s.watches, c, {}) == s.watches;
    assert ToSet([]) == {};
  }

  lemma StillStopped(s: State, p: Phase, parent: ContextId, c: Consumer, reqs: seq<WatchRequest>, n: nat)
    requires n < |reqs| && PhaseIs(s, p, parent, c, reqs, n) && !p.Going?
    ensures PhaseIs(s, p, parent, c, reqs, n + 1)
  {
  }

  /** The loop over the first n requests. */
  lemma {:induction false} LoopShape(s: State, parent: ContextId, c: Consumer, reqs: seq<WatchRequest>, w: World,
                                     n: nat)
    requires n <= |reqs| && Core(s) && Indexed(s)
    ensures PhaseIs(s, Progress(s, parent, c, reqs, w, n), parent, c, reqs, n)
  {
    hide Core, PhaseIs, Indexed, Iterate;
    if n == 0 {
      LoopStarts(s, parent, c, reqs);
    } else {
      LoopShape(s, parent, c, reqs, w, n - 1);
      var before := Progress(s, parent, c, reqs, w, n - 1);
      if before.Going? {
        IterationStep(s, before, parent, c, reqs, w.answers(n - 1), n - 1);
      } else {
        StillStopped(s, before, parent, c, reqs, n - 1);
      }
    }
  }

  /** Request i is the first that is not answered well, and what goes wrong is a panic. */
  predicate PanicsAt(s: State, c: Consumer, reqs: seq<WatchRequest>, w: World, i: nat)
    requires i < |reqs|
  {
    IsFirst(reqs, i) && AnsweredUpTo(s, c, reqs, w, i) && Panics(s, reqs[i].key, w.answers(i))
  }

  predicate PanicsBefore(s: State, c: Consumer, reqs: seq<WatchRequest>, w: World, n: nat)
    requires n <= |reqs|
  {
    exists i | 0 <= i < n :: PanicsAt(s, c, reqs, w, i)
  }

  /** How the loop ends is decided by what the requests, first occurrences only, are answered. */
  lemma {:induction false} LoopOutcome(s: State, parent: ContextId, c: Consumer, reqs: seq<WatchRequest>, w: World,
                                       n: nat)
    requires n <= |reqs| && Core(s) && Indexed(s)
    ensures Progress(s, parent, c, reqs, w, n).Going? <==> AnsweredUpTo(s, c, reqs, w, n)
    ensures Progress(s, parent, c, reqs, w, n).Panicking? <==> PanicsBefore(s, c, reqs, w, n)
  {
    hide Core, PhaseIs, Answered, Panics, IsFirst, Indexed, Iterate;
    if n > 0 {
      LoopOutcome(s, parent, c, reqs, w, n - 1);
      var before := Progress(s, parent, c, reqs, w, n - 1);
      LoopShape(s, parent, c, reqs, w, n - 1);
      if before.Going? {
        IterationStep(s, before, parent, c, reqs, w.answers(n - 1), n - 1);
      }
      assert PanicsBefore(s, c, reqs, w, n) <==> PanicsBefore(s, c, reqs, w, n - 1) || PanicsAt(s, c, reqs, w, n - 1);
    }
  }

  // ----- failing -----

  /** Both indexes are what they were: the same entries, informers, handlers and key sets. */
  predicate SameIndexes(s: State, s': State) {
    s'.watches == s.watches && s'.index == s.index && s'.releaser == s.releaser && s'.cancelled == s.cancelled
  }

  lemma RollbackRestores(s0: State, s: State, parent: ContextId, c: Consumer, added: seq<WatchKey>)
    requires Indexed(s0) && Core(s) && Adding(s0, s, parent, c, ToSet(added)) && Distinct(added)
    requires forall k | k in added :: !Holds(s0, k, c)
    ensures var s' := ReleaseFirst(s, c, added, |added|);
      SameIndexes(s0, s') && Core(s') && s0.log <= s'.log && s0.next <= s'.next
  {
    hide Core;
    forall k | k in added ensures Holds(s, k, c) {
      assert AddedSince(s0, s, parent, c, k);
    }
    ReleasesPrune(s, c, added, |added|);
    assert added[..|added|] == added;
    if c in s0.index {
      forall k | k in s0.index[c] ensures k !in added {
        assert k in IndexOf(s0, c);
      }
      assert s0.index[c] - ToSet(added) == s0.index[c];
    }
  }

  /** What the keys added so far have in common: c did not hold them before. */
  lemma AddedWereFree(s0: State, p: Phase, parent: ContextId, c: Consumer, reqs: seq<WatchRequest>, n: nat, k: WatchKey)
    requires n <= |reqs| && PhaseIs(s0, p, parent, c, reqs, n) && k in p.added
    ensures !Holds(s0, k, c)
  {
    hide Core;
    assert AddedSince(s0, p.s, parent, c, k);
    assert k in ToSet(p.added);
  }

  /** A call that is refused or panics, wherever in its list, leaves both indexes as they were. */
  lemma FailureRestores(s: State, parent: ContextId, c: Consumer, reqs: seq<WatchRequest>, w: World,
                        order: seq<WatchKey>)
    requires Inv(s) && reqs != [] && !AnsweredUpTo(s, c, reqs, w, |reqs|)
    ensures var (s', r) := Ensure(s, parent, c, reqs, w, order);
      && SameIndexes(s, s') && Inv(s') && s.log <= s'.log && s.next <= s'.next
      && (r.Refused? || r.Panicked?) && (r.Panicked? <==> PanicsBefore(s, c, reqs, w, |reqs|))
  {
    hide Core, IsFirst, Answered, Panics;
    LoopOutcome(s, parent, c, reqs, w, |reqs|);
    LoopShape(s, parent, c, reqs, w, |reqs|);
    var p := Progress(s, parent, c, reqs, w, |reqs|);
    forall k | k in p.added ensures !Holds(s, k, c) {
      AddedWereFree(s, p, parent, c, reqs, |reqs|, k);
    }
    RollbackRestores(s, p.s, parent, c, p.added);
    var s' := ReleaseFirst(p.s, c, p.added, |p.added|);
    assert Indexed(s') by {
      assert forall k, x :: Holds(s', k, x) <==> Holds(s, k, x);
    }
  }

  // ----- succeeding -----

  /** Key k before and after a committed call of consumer c that wants the keys in desired. */
  predicate KeyCommitted(s: State, s': State, parent: ContextId, c: Consumer, desired: set<WatchKey>, k: WatchKey) {
    && (k in s'.watches <==> k in desired || (k in s.watches && s.watches[k].handlers.Keys - {c} != {}))
    && (Holds(s', k, c) <==> k in desired)
    && (k in s'.watches ==>
          var e' := s'.watches[k];
          if k in s.watches then
            var e := s.watches[k];
            e' == e.(handlers := e'.handlers) && e'.handlers - {c} == e.handlers - {c}
          else
            s.next <= e'.informer && e'.parent == parent && e'.handlers.Keys == {c})
    && (k in desired ==> if Holds(s, k, c) then s'.watches[k].handlers[c] == s.watches[k].handlers[c]
                         else s.next <= s'.watches[k].handlers[c].channel)
  }

  ghost predicate Committed(s: State, s': State, parent: ContextId, c: Consumer, reqs: seq<WatchRequest>) {
    && s'.index == s.index[c := KeysOf(reqs)] && s'.releaser == s.releaser && s'.cancelled == s.cancelled
    && s.next <= s'.next && s.log <= s'.log
    && (forall k :: KeyCommitted(s, s', parent, c, KeysOf(reqs), k))
    && (forall i | 0 <= i < |reqs| && IsFirst(reqs, i) && !Holds(s, reqs[i].key, c) ::
          Holds(s', reqs[i].key, c) && s'.watches[reqs[i].key].handlers[c].callback == reqs[i].callback)
  }

  /** Key k when the loop is through and before anything is swept. */
  lemma KeyAdded(s: State, t: State, parent: ContextId, c: Consumer, added: set<WatchKey>, k: WatchKey)
    requires Indexed(s) && Adding(s, t, parent, c, added)
    ensures k in t.watches <==> k in s.watches || k in added
    ensures k in added ==> AddedSince(s, t, parent, c, k)
    ensures k !in added && k in s.watches ==> t.watches[k] == s.watches[k]
    ensures k in added && k in s.watches ==>
      && t.watches[k] == s.watches[k].(handlers := t.watches[k].handlers)
      && t.watches[k].handlers - {c} == s.watches[k].handlers - {c}
    ensures k in added && k !in s.watches ==> t.watches[k].handlers.Keys == {c}
  {
    if k in added {
      assert AddedSince(s, t, parent, c, k);
      if k in s.watches {
        assert Pruned(t.watches, c, added)[k] == t.watches[k].(handlers := t.watches[k].handlers - {c});
        assert c !in s.watches[k].handlers;
        assert s.watches[k].handlers - {c} == s.watches[k].handlers;
      }
    } else {
      PruneKeeps(t.watches, c, added, k);
    }
  }

  lemma KeySwept(s: State, t: State, s': State, parent: ContextId, c: Consumer, desired: set<WatchKey>,
                 added: set<WatchKey>, k: WatchKey)
    requires Indexed(s) && Adding(s, t, parent, c, added) && added <= desired
    requires forall x | x in added :: !Holds(s, x, c)
    requires forall x | x in desired :: Holds(t, x, c)
    requires s'.watches == Pruned(t.watches, c, IndexOf(s, c) - desired)
    ensures KeyCommitted(s, s', parent, c, desired, k)
  {
    KeyAdded(s, t, parent, c, added, k);
    assert k in IndexOf(s, c) <==> Holds(s, k, c);
    if k in desired {
      assert Holds(t, k, c);
      assert s'.watches[k] == t.watches[k];
    } else if k in s.watches {
      var e := s.watches[k];
      assert t.watches[k] == e;
      assert (e.handlers - {c}).Keys == e.handlers.Keys - {c};
      assert e.handlers - {c} - {c} == e.handlers - {c};
    }
  }

  /** Nothing of a consumer other than c has changed: same keys, handlers, informers. */
  ghost predicate OthersUntouched(s: State, s': State, c: Consumer) {
    forall k, x | x != c ::
      && (Holds(s', k, x) <==> Holds(s, k, x))
      && (Holds(s, k, x) ==>
            HandleOf(s', k, x) == HandleOf(s, k, x) && s'.watches[k].handlers[x] == s.watches[k].handlers[x])
      && IndexOf(s', x) == IndexOf(s, x)
  }

  lemma CommittedUntouched(s: State, s': State, parent: ContextId, c: Consumer, reqs: seq<WatchRequest>)
    requires Committed(s, s', parent, c, reqs)
    ensures OthersUntouched(s, s', c)
  {
    forall k, x | x != c
      ensures Holds(s', k, x) <==> Holds(s, k, x)
      ensures Holds(s, k, x) ==>
              HandleOf(s', k, x) == HandleOf(s, k, x) && s'.watches[k].handlers[x] == s.watches[k].handlers[x]
      ensures IndexOf(s', x) == IndexOf(s, x)
    {
      OtherUntouched(s, s', parent, c, KeysOf(reqs), k, x);
    }
  }

  lemma OtherUntouched(s: State, s': State, parent: ContextId, c: Consumer, desired: set<WatchKey>, k: WatchKey,
                       x: Consumer)
    requires KeyCommitted(s, s', parent, c, desired, k) && x != c
    ensures Holds(s', k, x) <==> Holds(s, k, x)
    ensures Holds(s, k, x) ==>
            HandleOf(s', k, x) == HandleOf(s, k, x) && s'.watches[k].handlers[x] == s.watches[k].handlers[x]
  {
    if k in s.watches && k in s'.watches {
      var hs, hs' := s.watches[k].handlers, s'.watches[k].handlers;
      assert x in hs <==> x in hs - {c};
      assert x in hs' <==> x in hs' - {c};
      assert x in hs ==> hs[x] == (hs - {c})[x] == hs'[x];
    } else if k in s.watches {
      assert x !in s.watches[k].handlers.Keys - {c};
    } else if k in s'.watches {
      assert x !in s'.watches[k].handlers.Keys;
    }
  }

  lemma CommittedIndexed(s: State, s': State, parent: ContextId, c: Consumer, reqs: seq<WatchRequest>)
    requires Indexed(s) && Committed(s, s', parent, c, reqs) && reqs != []
    ensures Indexed(s')
  {
    CommittedUntouched(s, s', parent, c, reqs);
    var desired := KeysOf(reqs);
    assert reqs[0].key in desired;
    forall k | k in s'.watches ensures s'.watches[k].handlers != map[] {
      assert KeyCommitted(s, s', parent, c, desired, k);
      if k !in desired {
        var x :| x in s.watches[k].handlers.Keys - {c};
        assert Holds(s', k, x);
      }
    }
    forall k, x ensures k in IndexOf(s', x) <==> Holds(s', k, x) {
      if x == c {
        assert KeyCommitted(s, s', parent, c, desired, k);
      } else {
        assert k in IndexOf(s, x) <==> Holds(s, k, x);
      }
    }
  }

  /** One piece for each key, in the order of the keys. */
  function Concat<T>(piece: WatchKey -> seq<T>, keys: seq<WatchKey>): seq<T> {
    if keys == [] then [] else Concat(piece, keys[..|keys| - 1]) + piece(keys[|keys| - 1])
  }

  /** The errors of a sweep, in its order. */
  function Failures(order: seq<WatchKey>, stuck: set<WatchKey>): seq<Error> {
    Concat(k => if k in stuck then [RemoveFailed(k)] else [], order)
  }

  /** Whatever was swept before it, a key is swept from the entry it had. */
  lemma SweepAt(s: State, c: Consumer, keys: seq<WatchKey>, n: nat)
    requires n < |keys| && Distinct(keys) && forall k | k in keys :: Holds(s, k, c)
    requires c in s.index ==> s.index[c] != {}
    ensures var t, k := ReleaseFirst(s, c, keys, n), keys[n];
      k in s.watches && k in t.watches && t.watches[k] == s.watches[k] && t.releaser == s.releaser && Holds(t, k, c)
  {
    var k, gone := keys[n], ToSet(keys[..n]);
    assert k !in gone by {
      forall j | 0 <= j < n ensures keys[j] != k {
      }
    }
    assert Holds(s, k, c);
    hide Core, ReleaseFirst, Distinct;
    ReleasesPrune(s, c, keys, n);
    PruneKeeps(s.watches, c, gone, k);
  }

  lemma ConcatNext<T>(piece: WatchKey -> seq<T>, keys: seq<WatchKey>, n: nat)
    requires n < |keys|
    ensures Concat(piece, keys[..n + 1]) == Concat(piece, keys[..n]) + piece(keys[n])
  {
    assert keys[..n + 1][..n] == keys[..n];
  }

  lemma {:induction false} SweepErrors(s: State, c: Consumer, order: seq<WatchKey>, stuck: set<WatchKey>, n: nat)
    requires n <= |order| && Distinct(order) && forall k | k in order :: Holds(s, k, c)
    requires c in s.index ==> s.index[c] != {}
    ensures ReleaseErrors(s, c, order, stuck, n) == Failures(order[..n], stuck)
  {
    if n > 0 {
      hide Core, Distinct, ReleaseFirst, Holds, Concat;
      SweepErrors(s, c, order, stuck, n - 1);
      SweepAt(s, c, order, n - 1);
      ConcatNext(k => if k in stuck then [RemoveFailed(k)] else [], order, n - 1);
      SweepError(ReleaseFirst(s, c, order, n - 1), order[n - 1], c, stuck);
    }
  }

  lemma SweepError(t: State, k: WatchKey, c: Consumer, stuck: set<WatchKey>)
    requires Holds(t, k, c)
    ensures ReleaseError(t, k, c, stuck) == if k in stuck then [RemoveFailed(k)] else []
  {
  }

  /** The keys of the first n requests that the consumer did not hold before, each once, in order. */
  function NewKeys(s: State, c: Consumer, reqs: seq<WatchRequest>, n: nat): seq<WatchKey>
    requires n <= |reqs|
  {
    if n == 0 then []
    else
      var k := reqs[n - 1].key;
      NewKeys(s, c, reqs, n - 1) + if IsFirst(reqs, n - 1) && !Holds(s, k, c) then [k] else []
  }

  /** What is wrong when key k is not answered well: the client, else the informer, else the handler. */
  function Cause(s: State, k: WatchKey, a: Answers): Error {
    if k in s.watches then AttachFailed(k)
    else if !a.client.Client? then ClientFailed(k)
    else if !a.informer.Informer? then InformerFailed(k)
    else AttachFailed(k)
  }

  lemma IterateAdds(p: Phase, parent: ContextId, c: Consumer, r: WatchRequest, a: Answers)
    requires p.Going?
    ensures var p' := Iterate(p, parent, c, r, a);
      && p'.added == (if p'.Going? && !Holds(p.s, r.key, c) then p.added + [r.key] else p.added)
      && (p'.Failing? ==> p'.cause == Cause(p.s, r.key, a) && !Holds(p.s, r.key, c))
  {
    hide StopWatch, AttachHandler, GiveBack, Log;
  }

  lemma IterationReports(s0: State, p: Phase, parent: ContextId, c: Consumer, reqs: seq<WatchRequest>, a: Answers,
                         n: nat)
    requires n < |reqs| && p.Going? && PhaseIs(s0, p, parent, c, reqs, n) && Indexed(s0)
    requires p.added == NewKeys(s0, c, reqs, n)
    ensures var p' := Iterate(p, parent, c, reqs[n], a);
      && p'.added == (if p'.Going? then NewKeys(s0, c, reqs, n + 1) else NewKeys(s0, c, reqs, n))
      && (p'.Failing? ==> p'.cause == Cause(s0, reqs[n].key, a))
  {
    AtKey(s0, p, parent, c, reqs, n);
    IterateAdds(p, parent, c, reqs[n], a);
    hide PhaseIs, Core, Indexed, IsFirst, Iterate, ToSet, Holds;
  }

  /** The loop stops at the first request that is not answered well, having added the new keys before it. */
  lemma {:induction false} LoopStopsAt(s: State, parent: ContextId, c: Consumer, reqs: seq<WatchRequest>, w: World,
                                       n: nat) returns (i: nat)
    requires n <= |reqs| && Core(s) && Indexed(s)
    ensures var p := Progress(s, parent, c, reqs, w, n);
      if p.Going? then p.added == NewKeys(s, c, reqs, n)
      else
        && i < n && IsFirst(reqs, i) && AnsweredUpTo(s, c, reqs, w, i) && !Answered(s, c, reqs[i].key, w.answers(i))
        && p.added == NewKeys(s, c, reqs, i) && (p.Failing? ==> p.cause == Cause(s, reqs[i].key, w.answers(i)))
  {
    hide Core, PhaseIs, Answered, Panics, IsFirst, Indexed, Iterate, Cause, AnsweredUpTo, PanicsBefore;
    i := 0;
    if n > 0 {
      i := LoopStopsAt(s, parent, c, reqs, w, n - 1);
      var before := Progress(s, parent, c, reqs, w, n - 1);
      if before.Going? {
        LoopShape(s, parent, c, reqs, w, n - 1);
        LoopOutcome(s, parent, c, reqs, w, n - 1);
        IterationStep(s, before, parent, c, reqs, w.answers(n - 1), n - 1);
        IterationReports(s, before, parent, c, reqs, w.answers(n - 1), n - 1);
        if !Progress(s, parent, c, reqs, w, n).Going? { i := n - 1; }
      }
    }
  }

  /** What a refused call reports: what went wrong with the first request that was not answered well, and then, one by
      one, the handlers among those it had added before that could not be removed again. */
  lemma FailureReports(s: State, parent: ContextId, c: Consumer, reqs: seq<WatchRequest>, w: World,
                       order: seq<WatchKey>) returns (i: nat)
    requires Inv(s) && reqs != [] && Ensure(s, parent, c, reqs, w, order).1.Refused?
    ensures i < |reqs| && IsFirst(reqs, i) && AnsweredUpTo(s, c, reqs, w, i)
    ensures var k, a := reqs[i].key, w.answers(i);
      && !Answered(s, c, k, a)
      && Ensure(s, parent, c, reqs, w, order).1.errors ==
           [if k in s.watches then AttachFailed(k)
            else if !a.client.Client? then ClientFailed(k)
            else if !a.informer.Informer? then InformerFailed(k) else AttachFailed(k)]
           + Failures(NewKeys(s, c, reqs, i), w.stuck)
  {
    hide Core, IsFirst, Answered, Panics, AnsweredUpTo, NewKeys, ReleaseFirst, ReleaseErrors, Failures, Progress;
    i := LoopStopsAt(s, parent, c, reqs, w, |reqs|);
    LoopShape(s, parent, c, reqs, w, |reqs|);
    var p := Progress(s, parent, c, reqs, w, |reqs|);
    forall k | k in p.added ensures Holds(p.s, k, c) {
      assert AddedSince(s, p.s, parent, c, k);
    }
    SweepErrors(p.s, c, p.added, w.stuck, |p.added|);
    assert p.added[..|p.added|] == p.added;
  }

  /** A call whose requests are all answered well commits: the consumer holds exactly the keys it asked for,
      its handles are those of the new state, and only stale removal can have left errors. */
  lemma SuccessCommits(s: State, parent: ContextId, c: Consumer, reqs: seq<WatchRequest>, w: World,
                       order: seq<WatchKey>)
    requires Inv(s) && reqs != [] && AnsweredUpTo(s, c, reqs, w, |reqs|) && Lists(order, Swept(s, c, reqs))
    ensures var (s', r) := Ensure(s, parent, c, reqs, w, order);
      && Committed(s, s', parent, c, reqs) && Inv(s')
      && r.Registered? && |r.handles| == |reqs| && HandlesAre(s', c, reqs, r.handles)
      && r.errors == Failures(order, w.stuck)
  {
    hide Core, IsFirst, Answered, Panics;
    LoopOutcome(s, parent, c, reqs, w, |reqs|);
    LoopShape(s, parent, c, reqs, w, |reqs|);
    CommitApplies(s, Progress(s, parent, c, reqs, w, |reqs|), parent, c, reqs, order, w.stuck);
  }

  lemma CommitApplies(s: State, p: Phase, parent: ContextId, c: Consumer, reqs: seq<WatchRequest>,
                      order: seq<WatchKey>, stuck: set<WatchKey>)
    requires Inv(s) && reqs != [] && p.Going? && PhaseIs(s, p, parent, c, reqs, |reqs|)
    requires Lists(order, Swept(s, c, reqs))
    ensures var (s', r) := Commit(p, c, reqs, order, stuck);
      && Committed(s, s', parent, c, reqs) && Inv(s')
      && |r.handles| == |reqs| && HandlesAre(s', c, reqs, r.handles)
      && r.errors == Failures(order, stuck)
  {
    hide Core, IsFirst, FirstCallbacks, Committed, Pruned;
    var desired := KeysOf(reqs);
    var (s', r) := Commit(p, c, reqs, order, stuck);
    forall k | k in p.added ensures !Holds(s, k, c) && k in desired {
      AddedWereFree(s, p, parent, c, reqs, |reqs|, k);
    }
    forall k | k in desired ensures Holds(p.s, k, c) {
      var i :| 0 <= i < |reqs| && reqs[i].key == k;
    }
    forall k | k in order ensures Holds(p.s, k, c) {
      assert k in IndexOf(s, c);
      KeyAdded(s, p.s, parent, c, ToSet(p.added), k);
    }
    ReleasesPrune(p.s, c, order, |order|);
    assert order[..|order|] == order;
    SweepErrors(p.s, c, order, stuck, |order|);
    assert ToSet(order) == IndexOf(s, c) - desired;
    CommitPrunes(s, p, s', parent, c, reqs);
    CommittedIndexed(s, s', parent, c, reqs);
    CoreIgnoresIndex(ReleaseFirst(p.s, c, order, |order|), s'.index);
  }

  lemma CommitPrunes(s: State, p: Phase, s': State, parent: ContextId, c: Consumer, reqs: seq<WatchRequest>)
    requires Indexed(s) && p.Going? && PhaseIs(s, p, parent, c, reqs, |reqs|)
    requires forall k | k in p.added :: !Holds(s, k, c) && k in KeysOf(reqs)
    requires forall k | k in KeysOf(reqs) :: Holds(p.s, k, c)
    requires s'.watches == Pruned(p.s.watches, c, IndexOf(s, c) - KeysOf(reqs))
    requires s'.index == s.index[c := KeysOf(reqs)]
    requires s'.releaser == s.releaser && s'.cancelled == s.cancelled && s'.next == p.s.next && p.s.log <= s'.log
    ensures Committed(s, s', parent, c, reqs) && HandlesAre(s', c, reqs, p.handles)
  {
    hide Core, IsFirst;
    var desired, added := KeysOf(reqs), ToSet(p.added);
    forall k ensures KeyCommitted(s, s', parent, c, desired, k) {
      KeySwept(s, p.s, s', parent, c, desired, added, k);
    }
    forall k | k in desired ensures k in s'.watches && s'.watches[k] == p.s.watches[k] {
      PruneKeeps(p.s.watches, c, IndexOf(s, c) - desired, k);
    }
    forall i | 0 <= i < |reqs| && IsFirst(reqs, i) && !Holds(s, reqs[i].key, c)
      ensures Holds(s', reqs[i].key, c) && s'.watches[reqs[i].key].handlers[c].callback == reqs[i].callback
    {
      KeyAdded(s, p.s, parent, c, added, reqs[i].key);
      assert reqs[i].key in desired;
    }
  }

  // ----- releasing everything -----

  /** ReleaseAll, or an empty EnsureWatchSet: the consumer holds nothing, nobody else notices. */
  lemma ReleaseClears(s: State, c: Consumer, order: seq<WatchKey>, stuck: set<WatchKey>)
    requires Inv(s) && Lists(order, IndexOf(s, c))
    ensures var (s', r) := Release(s, c, order, stuck);
      && Inv(s') && s'.index == s.index - {c} && (forall k :: !Holds(s', k, c)) && OthersUntouched(s, s', c)
      && s'.releaser == s.releaser && s'.cancelled == s.cancelled && s'.next == s.next && s.log <= s'.log
      && r == Cleared(Failures(order, stuck))
  {
    hide Core, Pruned, OthersUntouched;
    var (s', r) := Release(s, c, order, stuck);
    forall k | k in order ensures Holds(s, k, c) {
      assert k in IndexOf(s, c);
    }
    ReleasesPrune(s, c, order, |order|);
    SweepErrors(s, c, order, stuck, |order|);
    assert order[..|order|] == order;
    assert ToSet(order) == IndexOf(s, c);
    assert c !in s.index ==> s.index - {c} == s.index;
    ClearedIndexed(s, s', c);
  }

  lemma ClearedIndexed(s: State, s': State, c: Consumer)
    requires Indexed(s) && s'.watches == Pruned(s.watches, c, IndexOf(s, c)) && s'.index == s.index - {c}
    ensures Indexed(s') && (forall k :: !Holds(s', k, c)) && OthersUntouched(s, s', c)
  {
    assert forall x :: IndexOf(s', x) == if x == c then {} else IndexOf(s, x);
    forall k, x ensures Holds(s', k, x) <==> Holds(s, k, x) && x != c {
      PrunedAll(s, s', c, k, x);
    }
    assert OthersUntouched(s, s', c) by {
      hide Pruned, Indexed;
      forall k, x | x != c
        ensures Holds(s, k, x) ==>
                HandleOf(s', k, x) == HandleOf(s, k, x) && s'.watches[k].handlers[x] == s.watches[k].handlers[x]
      {
        PrunedAll(s, s', c, k, x);
      }
    }
    assert Indexed(s') by {
      hide Pruned;
      forall k | k in s'.watches ensures s'.watches[k].handlers != map[] {
        PrunedAll(s, s', c, k, c);
      }
    }
  }

  lemma PrunedAll(s: State, s': State, c: Consumer, k: WatchKey, x: Consumer)
    requires Indexed(s) && s'.watches == Pruned(s.watches, c, IndexOf(s, c))
    ensures Holds(s', k, x) <==> Holds(s, k, x) && x != c
    ensures k in s'.watches ==> s'.watches[k].handlers != map[]
    ensures Holds(s', k, x) ==>
            HandleOf(s', k, x) == HandleOf(s, k, x) && s'.watches[k].handlers[x] == s.watches[k].handlers[x]
  {
    assert k in IndexOf(s, c) <==> Holds(s, k, c);
    if k in s.watches {
      var hs := s.watches[k].handlers;
      assert (hs - {c}).Keys == hs.Keys - {c};
      if k in s'.watches && k in IndexOf(s, c) {
        assert hs.Keys - {c} != {} by { assert hs.Keys == {c} + (hs.Keys - {c}); }
      }
    }
  }

  // ----- map iteration order does not matter -----

  /** What releasing k logs; nothing released before it changes that. */
  function ReleaseEvents(s: State, c: Consumer, k: WatchKey): seq<Event> {
    if !Holds(s, k, c) then []
    else
      var e := s.watches[k];
      [Closed(e.handlers[c].channel), Detached(e.handlers[c].channel)] +
      if e.handlers.Keys == {c} then [Stopped(e.informer)] + (if s.releaser then [GivenBack(k.identity)] else [])
      else []
  }

  lemma ReleaseLog(s: State, c: Consumer, k: WatchKey)
    ensures ReleaseWatch(s, k, c).log == s.log + ReleaseEvents(s, c, k)
  {
    if Holds(s, k, c) {
      var hs := s.watches[k].handlers;
      assert (hs - {c}).Keys == hs.Keys - {c};
      assert hs.Keys == {c} <==> hs - {c} == map[] by {
        if hs.Keys == {c} {
          assert hs - {c} == map[];
        } else {
          assert hs.Keys - {c} != {} by { assert hs.Keys == {c} + (hs.Keys - {c}); }
        }
      }
    }
  }

  lemma {:induction false} SweepLog(s: State, c: Consumer, keys: seq<WatchKey>, n: nat)
    requires n <= |keys| && Distinct(keys) && forall k | k in keys :: Holds(s, k, c)
    requires c in s.index ==> s.index[c] != {}
    ensures ReleaseFirst(s, c, keys, n).log == s.log + Concat(k => ReleaseEvents(s, c, k), keys[..n])
  {
    if n > 0 {
      var t, k := ReleaseFirst(s, c, keys, n - 1), keys[n - 1];
      assert ReleaseFirst(s, c, keys, n) == ReleaseWatch(t, k, c);
      hide *;
      SweepLog(s, c, keys, n - 1);
      SweepAt(s, c, keys, n - 1);
      SameEvents(s, t, c, k);
      ReleaseLog(t, c, k);
      ConcatNext(x => ReleaseEvents(s, c, x), keys, n - 1);
    } else {
      assert keys[..n] == [];
    }
  }

  lemma SameEvents(s: State, t: State, c: Consumer, k: WatchKey)
    requires k in s.watches && k in t.watches && t.watches[k] == s.watches[k] && t.releaser == s.releaser
    ensures ReleaseEvents(t, c, k) == ReleaseEvents(s, c, k)
  {
  }

  lemma {:induction false} ConcatWithout<T>(piece: WatchKey -> seq<T>, keys: seq<WatchKey>, j: nat)
    requires j < |keys|
    ensures multiset(Concat(piece, keys)) ==
              multiset(Concat(piece, keys[..j] + keys[j + 1..])) + multiset(piece(keys[j]))
  {
    var n := |keys| - 1;
    if j == n {
      assert keys[..j] + keys[j + 1..] == keys[..n];
    } else {
      var rest := keys[..j] + keys[j + 1..];
      ConcatWithout(piece, keys[..n], j);
      assert rest[..|rest| - 1] == keys[..n][..j] + keys[..n][j + 1..];
      assert rest[|rest| - 1] == keys[n];
    }
  }

  lemma ListsWithout(order: seq<WatchKey>, keys: set<WatchKey>, j: nat)
    requires Lists(order, keys) && j < |order|
    ensures Lists(order[..j] + order[j + 1..], keys - {order[j]})
  {
    var rest := order[..j] + order[j + 1..];
    forall k ensures k in rest <==> k in keys - {order[j]} {
      if k in keys && k != order[j] {
        var i :| 0 <= i < |order| && order[i] == k;
        assert rest[if i < j then i else i - 1] == k;
      }
    }
  }

  lemma {:induction false} ListingLength(order: seq<WatchKey>, keys: set<WatchKey>)
    requires Lists(order, keys)
    ensures |order| == |keys|
  {
    if order == [] {
      assert keys == {};
    } else {
      var n := |order| - 1;
      ListsWithout(order, keys, n);
      assert order[..n] + order[n + 1..] == order[..n];
      ListingLength(order[..n], keys - {order[n]});
    }
  }

  /** Two listings of the same keys give the same pieces. */
  lemma {:induction false} ConcatUnordered<T>(piece: WatchKey -> seq<T>, a: seq<WatchKey>, b: seq<WatchKey>,
                                              keys: set<WatchKey>)
    requires Lists(a, keys) && Lists(b, keys)
    ensures multiset(Concat(piece, a)) == multiset(Concat(piece, b))
  {
    ListingLength(a, keys);
    ListingLength(b, keys);
    if a != [] {
      var n := |a| - 1;
      var k := a[n];
      assert k in keys;
      var j :| 0 <= j < |b| && b[j] == k;
      ConcatWithout(piece, b, j);
      ListsWithout(a, keys, n);
      ListsWithout(b, keys, j);
      assert Concat(piece, a) == Concat(piece, a[..n]) + piece(k);
      hide Lists, Concat;
      assert a[..n] + a[n + 1..] == a[..n];
      ConcatUnordered(piece, a[..n], b[..j] + b[j + 1..], keys - {k});
    }
  }

  /** In whatever order Go ranges over the swept keys, the indexes come out the same, and so, up to order,
      do the errors and everything the outside sees. */
  lemma OrderIrrelevant(s: State, parent: ContextId, c: Consumer, reqs: seq<WatchRequest>, w: World,
                        order: seq<WatchKey>, order': seq<WatchKey>)
    requires Inv(s) && Lists(order, Swept(s, c, reqs)) && Lists(order', Swept(s, c, reqs))
    ensures var (s1, r1) := Ensure(s, parent, c, reqs, w, order); var (s2, r2) := Ensure(s, parent, c, reqs, w, order');
      && SameIndexes(s1, s2) && s1.next == s2.next && multiset(s1.log) == multiset(s2.log)
      && (r1.Registered? ==> r2.Registered? && r1.handles == r2.handles && multiset(r1.errors) == multiset(r2.errors))
      && (r1.Cleared? ==> r2.Cleared? && multiset(r1.errors) == multiset(r2.errors))
      && (r1.Refused? || r1.Panicked? ==> s1 == s2 && r1 == r2)
  {
    hide Core, Pruned, IsFirst, FirstCallbacks;
    if reqs == [] {
      SweepUnordered(s, c, order, order', Swept(s, c, reqs), w.stuck);
    } else {
      var p := Progress(s, parent, c, reqs, w, |reqs|);
      LoopShape(s, parent, c, reqs, w, |reqs|);
      if p.Going? {
        forall k | k in Swept(s, c, reqs) ensures Holds(p.s, k, c) {
          assert k in IndexOf(s, c);
          KeyAdded(s, p.s, parent, c, ToSet(p.added), k);
        }
        SweepUnordered(p.s, c, order, order', Swept(s, c, reqs), w.stuck);
      }
    }
  }

  lemma SweepUnordered(s: State, c: Consumer, order: seq<WatchKey>, order': seq<WatchKey>, keys: set<WatchKey>,
                       stuck: set<WatchKey>)
    requires Lists(order, keys) && Lists(order', keys) && (c in s.index ==> s.index[c] != {})
    requires forall k | k in keys :: Holds(s, k, c)
    ensures var s1 := ReleaseFirst(s, c, order, |order|); var s2 := ReleaseFirst(s, c, order', |order'|);
      SameIndexes(s1, s2) && s1.next == s2.next && multiset(s1.log) == multiset(s2.log)
    ensures multiset(ReleaseErrors(s, c, order, stuck, |order|)) ==
              multiset(ReleaseErrors(s, c, order', stuck, |order'|))
  {
    hide Core, Pruned;
    assert order[..|order|] == order && order'[..|order'|] == order';
    assert ToSet(order) == keys && ToSet(order') == keys;
    ReleasesPrune(s, c, order, |order|);
    ReleasesPrune(s, c, order', |order'|);
    SweepLog(s, c, order, |order|);
    SweepLog(s, c, order', |order'|);
    SweepErrors(s, c, order, stuck, |order|);
    SweepErrors(s, c, order', stuck, |order'|);
    ConcatUnordered(k => ReleaseEvents(s, c, k), order, order', keys);
    ConcatUnordered(k => if k in stuck then [RemoveFailed(k)] else [], order, order', keys);
  }
}
