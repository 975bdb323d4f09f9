/** Histories of the registry object: whatever calls are made on it, one after the other, they are a run of the model,
    so that what is proved of runs holds of the object. */
module WatchHistory {
  import opened WatchModel
  import opened WatchLaws
  import opened WatchRuns
  import opened WatchRegistry

  /** A call of the public interface, with the surroundings it meets. */
  datatype Call =
    | EnsureCall(parent: Context, consumer: Consumer, reqs: seq<WatchRequest>, world: World)
    | ReleaseCall(consumer: Consumer, stuck: set<WatchKey>)

  /** The step of a run that stands for the call, in whatever order the map was ranged over. */
  ghost predicate StandsFor(op: Op, call: Call) {
    match call
    case EnsureCall(parent, c, reqs, w) =>
      op.EnsureOp? && op.parent == parent.id && op.consumer == c && op.reqs == reqs && op.world == w
    case ReleaseCall(c, stuck) => op.ReleaseOp? && op.consumer == c && op.stuck == stuck
  }

  function Extend(run: Run, op: Op): Run
    requires |run.states| > 0
  {
    var (s, r) := Apply(run.states[|run.states| - 1], op);
    Run(run.states + [s], run.ops + [op], run.results + [r])
  }

  lemma Extends(run: Run, op: Op)
    requires IsRun(run) && Orderly(run.states[|run.ops|], op)
    ensures IsRun(Extend(run, op))
  {
    hide Apply, Orderly;
    var longer := Extend(run, op);
    forall i | 0 <= i < |longer.ops|
      ensures Orderly(longer.states[i], longer.ops[i])
      ensures Apply(longer.states[i], longer.ops[i]) == (longer.states[i + 1], longer.results[i])
    {
      if i < |run.ops| { assert Orderly(run.states[i], run.ops[i]); }
    }
  }

  /** The outcomes so far are those of the run, and still stand for the same channels and contexts. */
  ghost predicate Told(outcomes: seq<Outcome>, run: Run, channels: map<nat, Channel>, contexts: map<nat, Context>) {
    && |outcomes| == |run.results|
    && forall i | 0 <= i < |outcomes| :: Reports(outcomes[i], run.results[i], channels, contexts)
  }

  lemma StillReports(o: Outcome, r: Result, channels: map<nat, Channel>, contexts: map<nat, Context>,
                     channels': map<nat, Channel>, contexts': map<nat, Context>)
    requires Reports(o, r, channels, contexts) && Grown(channels, channels') && Grown(contexts, contexts')
    ensures Reports(o, r, channels', contexts')
  {
    if r.Registered? {
      forall i | 0 <= i < |o.regs| ensures Represents(o.regs[i], r.handles[i], channels', contexts') {
        assert Represents(o.regs[i], r.handles[i], channels, contexts);
      }
    }
  }

  lemma StillTold(outcomes: seq<Outcome>, run: Run, o: Outcome, op: Op, channels: map<nat, Channel>,
                  contexts: map<nat, Context>,
                  channels': map<nat, Channel>, contexts': map<nat, Context>)
    requires Told(outcomes, run, channels, contexts) && Grown(channels, channels') && Grown(contexts, contexts')
    requires |run.states| > 0 && Reports(o, Apply(run.states[|run.states| - 1], op).1, channels', contexts')
    ensures Told(outcomes + [o], Extend(run, op), channels', contexts')
  {
    hide Reports, Apply;
    forall i | 0 <= i < |outcomes| ensures Reports(outcomes[i], run.results[i], channels', contexts') {
      StillReports(outcomes[i], run.results[i], channels, contexts, channels', contexts');
    }
  }

  lemma EnsureStep(s: State, parent: Context, c: Consumer, reqs: seq<WatchRequest>, w: World, order: seq<WatchKey>)
    requires Lists(order, Swept(s, c, reqs))
    ensures
      var op := EnsureOp(parent.id, c, reqs, w, order);
      && StandsFor(op, EnsureCall(parent, c, reqs, w)) && Orderly(s, op)
      && Apply(s, op) == Ensure(s, parent.id, c, reqs, w, order)
  {
    hide Ensure, Lists, Swept;
  }

  lemma ReleaseStep(s: State, c: Consumer, stuck: set<WatchKey>, order: seq<WatchKey>, errs: seq<Error>,
                    channels: map<nat, Channel>, contexts: map<nat, Context>)
    requires Lists(order, IndexOf(s, c)) && Release(s, c, order, stuck).1 == Cleared(errs)
    ensures
      var op := ReleaseOp(c, stuck, order);
      && StandsFor(op, ReleaseCall(c, stuck)) && Orderly(s, op)
      && Apply(s, op) == Release(s, c, order, stuck)
      && Reports(NoRegistrations(errs), Cleared(errs), channels, contexts)
  {
    hide Release, Lists, IndexOf;
  }

  /** One call, and the step of the run that stands for it. */
  method Make(r: WatchRegistry, call: Call) returns (o: Outcome, ghost op: Op)
    requires r.Valid()
    modifies r.Repr()
    ensures r.Valid() && StandsFor(op, call) && Orderly(old(r.model), op)
    ensures r.model == Apply(old(r.model), op).0
    ensures Reports(o, Apply(old(r.model), op).1, r.channels, r.contexts)
    ensures Grown(old(r.channels), r.channels) && Grown(old(r.contexts), r.contexts)
    ensures fresh(r.Repr() - old(r.Repr()))
  {
    hide *;
    match call
    case EnsureCall(parent, c, reqs, w) =>
      ghost var order;
      o, order := r.EnsureWatchSet(parent, c, reqs, w);
      op := EnsureOp(parent.id, c, reqs, w, order);
      EnsureStep(old(r.model), parent, c, reqs, w, order);
    case ReleaseCall(c, stuck) =>
      var errs;
      ghost var order;
      errs, order := r.ReleaseAll(c, stuck);
      o := NoRegistrations(errs);
      op := ReleaseOp(c, stuck, order);
      ReleaseStep(old(r.model), c, stuck, order, errs, r.channels, r.contexts);
      GrownOne(old(r.channels), r.channels, 0);
      GrownOne(old(r.contexts), r.contexts, 0);
  }

  /** run is a history of the calls, and the outcomes are its results. */
  ghost predicate IsHistory(run: Run, calls: seq<Call>, outcomes: seq<Outcome>, s: State,
                            channels: map<nat, Channel>, contexts: map<nat, Context>)
  {
    && IsRun(run) && |run.ops| == |calls| && run.states[|calls|] == s
    && (forall i | 0 <= i < |calls| :: StandsFor(run.ops[i], calls[i]))
    && Told(outcomes, run, channels, contexts)
  }

  lemma HistoryBegins(s: State, channels: map<nat, Channel>, contexts: map<nat, Context>)
    requires s == Empty(s.releaser)
    ensures IsHistory(Run([s], [], []), [], [], s, channels, contexts)
  {
  }

  lemma HistoryGoesOn(run: Run, calls: seq<Call>, outcomes: seq<Outcome>, s: State, s': State, call: Call, op: Op,
                      o: Outcome,
                      channels: map<nat, Channel>, contexts: map<nat, Context>,
                      channels': map<nat, Channel>, contexts': map<nat, Context>)
    requires IsHistory(run, calls, outcomes, s, channels, contexts)
    requires StandsFor(op, call) && Orderly(s, op) && s' == Apply(s, op).0
    requires Reports(o, Apply(s, op).1, channels', contexts') && Grown(channels, channels')
    requires Grown(contexts, contexts')
    ensures |run.states| > 0 && IsHistory(Extend(run, op), calls + [call], outcomes + [o], s', channels', contexts')
  {
    hide Apply, Orderly, Reports, Told, StandsFor, Grown;
    Extends(run, op);
    StillTold(outcomes, run, o, op, channels, contexts, channels', contexts');
  }

  /** Any number of calls on a new registry, in any order. */
  method Drive(r: WatchRegistry, calls: seq<Call>) returns (outcomes: seq<Outcome>, ghost run: Run)
    requires r.Valid() && r.model == Empty(r.model.releaser)
    modifies r.Repr()
    ensures r.Valid() && IsHistory(run, calls, outcomes, r.model, r.channels, r.contexts)
    ensures fresh(r.Repr() - old(r.Repr()))
  {
    hide *;
    outcomes := [];
    run := Run([r.model], [], []);
    HistoryBegins(r.model, r.channels, r.contexts);
    for n := 0 to |calls|
      invariant r.Valid() && IsHistory(run, calls[..n], outcomes, r.model, r.channels, r.contexts)
      invariant forall x | x in r.Repr() && x !in old(r.Repr()) :: fresh(x)
    {
      ghost var s, channels, contexts, repr := r.model, r.channels, r.contexts, r.Repr();
      var o;
      ghost var op;
      o, op := Make(r, calls[n]);
      assert forall x | x in r.Repr() && x !in repr :: !old(allocated(x));
      HistoryGoesOn(run, calls[..n], outcomes, s, r.model, calls[n], op, o, channels, contexts, r.channels, r.contexts);
      assert calls[..n + 1] == calls[..n] + [calls[n]];
      outcomes := outcomes + [o];
      run := Extend(run, op);
    }
    assert calls[..|calls|] == calls;
  }

  /** Which contexts are done is no part of the books. */
  lemma ServesAt(s: State, cancelled: set<ContextId>, h: Handle)
    requires Core(s) && Issued(s, h)
    ensures Serves(s.(cancelled := cancelled), h) <==> StillHeld(s, h) && h.parent !in cancelled
  {
    var t := s.(cancelled := cancelled);
    assert forall k, c :: Holds(t, k, c) <==> Holds(s, k, c);
    assert forall k, c | Holds(s, k, c) :: ChannelOf(t, k, c) == ChannelOf(s, k, c);
    assert forall id :: Watched(t, id) == Watched(s, id);
    hide Lawful, Replay;
    assert Core(t) && Issued(t, h) && (StillHeld(t, h) <==> StillHeld(s, h));
    hide Core, Issued, StillHeld;
    ServesIffHeld(t, h);
  }

  /** After any history, GetIndexer on a registration that one of its calls returned serves the informer exactly while
      the registration is the one held for its key and consumer and no context above the informer's is cancelled. */
  lemma HistoryServes(r: WatchRegistry, run: Run, calls: seq<Call>, outcomes: seq<Outcome>, i: nat, j: nat)
    requires r.Valid() && IsHistory(run, calls, outcomes, r.model, r.channels, r.contexts)
    requires i < |outcomes| && outcomes[i].Registrations? && j < |outcomes[i].regs|
    ensures i < |run.results| && run.results[i].Registered? && j < |run.results[i].handles|
    ensures
      var w, h := outcomes[i].regs[j], run.results[i].handles[j];
      && w.WatchRegistration? && w.context.parent != null
      && w.context.above == [w.context.parent] + w.context.parent.above
      && GetIndexer(w) ==
           if StillHeld(r.model, h) && forall c | c in w.context.above :: !c.cancelled then Indexer(h.informer)
           else ErrWatchStopped
  {
    assert Reports(outcomes[i], run.results[i], r.channels, r.contexts);
    var w, h := outcomes[i].regs[j], run.results[i].handles[j];
    assert Represents(w, h, r.channels, r.contexts);
    assert r.Linked() && Core(r.model);
    assert w.WatchRegistration? && w.context.parent != null;
    hide *;
    r.GetIndexerServes(w, h);
    assert Issued(r.model, h) by { HistoryIssued(run, calls, outcomes, r.model, r.channels, r.contexts, i, h); }
    ServesAt(r.model, if exists c | c in w.context.above :: c.cancelled then {h.parent} else {}, h);
  }

  lemma HistoryIssued(run: Run, calls: seq<Call>, outcomes: seq<Outcome>, s: State,
                      channels: map<nat, Channel>, contexts: map<nat, Context>, i: nat, h: Handle)
    requires IsHistory(run, calls, outcomes, s, channels, contexts)
    requires i < |run.results| && run.results[i].Registered? && h in run.results[i].handles
    ensures Issued(s, h)
  {
    hide Issued, Apply, Orderly, Told;
    RunKeepsIssued(run, i, |calls|, h);
  }
}
