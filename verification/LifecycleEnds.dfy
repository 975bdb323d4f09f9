/** How calls of Init and of a shutdown end: what each end says of its call, that some call can always go on, and where
    a call that nothing interrupts arrives. */
module LifecycleEnds {
  import opened Wrappers
  import opened Lifecycle
  import opened LifecycleRuns

  // ----- what an end says -----

  /** What is still ahead at b: nothing fails. */
  predicate Works(cfg: Config, b: BuildStep) {
    match b
    case NameService => cfg.resource && cfg.span && (Owns(cfg) ==> cfg.reader && cfg.runtime)
    case BuildResource => cfg.resource && cfg.span && (Owns(cfg) ==> cfg.reader && cfg.runtime)
    case BuildSpan => cfg.span && (Owns(cfg) ==> cfg.reader && cfg.runtime)
    case InstallTracer => Owns(cfg) ==> cfg.reader && cfg.runtime
    case InstallSupplied => true
    case BuildReader => cfg.reader && cfg.runtime
    case InstallMeter => cfg.runtime
    case StartRuntime => cfg.runtime
    case AbandonMeter => false
    case AbandonTracer => false
    case Commit => true
  }

  /** b is on the way of an Init that was given cfg. */
  predicate OnWay(cfg: Config, b: BuildStep) {
    && (b.InstallSupplied? ==> !Owns(cfg))
    && (b.BuildReader? || b.InstallMeter? || b.StartRuntime? || b.AbandonMeter? || b.AbandonTracer? ==> Owns(cfg))
  }

  /** What the end of call t says of it: which arguments it had, and what it has done. */
  predicate EndTells(m: Shared, cfgs: map<nat, Config>, t: nat, e: End) {
    match e
    case Invalid => t in cfgs && !cfgs[t].valid
    case Refused => t in cfgs && cfgs[t].valid
    case Failed => t in cfgs && cfgs[t].valid && !Works(cfgs[t], NameService)
    case Initialized(g) =>
      && t in cfgs && cfgs[t].valid && Works(cfgs[t], NameService)
      && g in m.sessions && m.sessions[g].cfg == cfgs[t]
    case Stopped(g) => t !in cfgs && g in m.sessions && m.sessions[g].once == Done(t)
    case Again(g) => t !in cfgs && g in m.sessions && m.sessions[g].once.Done?
  }

  /** ... and what the point where it is says of a call that has not ended. */
  predicate Tells(m: Shared, cfgs: map<nat, Config>, t: nat, c: Call) {
    match c
    case Entering(cfg) => t in cfgs && cfgs[t] == cfg
    case Waiting(cfg) => t in cfgs && cfgs[t] == cfg && cfg.valid
    case Guarding(cfg) => t in cfgs && cfgs[t] == cfg && cfg.valid
    case Building(_, cfg, b) =>
      t in cfgs && cfgs[t] == cfg && cfg.valid && OnWay(cfg, b) && (Works(cfg, b) <==> Works(cfg, NameService))
    case Failing(_, cfg, _) => t in cfgs && cfgs[t] == cfg && cfg.valid && !Works(cfg, NameService)
    case Unlocking(e) => EndTells(m, cfgs, t, e) && (e.Refused? || e.Failed? || e.Initialized?)
    case Shutting(g) => t !in cfgs && g in m.sessions
    case Stopping(g, _) => t !in cfgs && g in m.sessions
    case Ended(e) => EndTells(m, cfgs, t, e)
  }

  ghost predicate AllTell(s: State) {
    && (forall t | t in s.calls :: Tells(s.m, s.cfgs, t, s.calls[t]))
    && (forall t | t in s.cfgs :: t in s.calls)
    && (forall g | g in s.m.sessions && s.m.sessions[g].once.Done? ::
          var t := s.m.sessions[g].once.call; t in s.calls && s.calls[t] == Ended(Stopped(g)))
  }

  /** Sessions are kept, with what their Init was given; a closure that has run stays so. */
  predicate SessionsLast(m: Shared, m': Shared) {
    forall g | g in m.sessions ::
      && g in m'.sessions && m'.sessions[g].cfg == m.sessions[g].cfg
      && (m.sessions[g].once.Done? ==> m'.sessions[g] == m.sessions[g])
  }

  /** Only the call that leaves the once has run the closure. */
  predicate NewlyDone(m: Shared, m': Shared, t: nat, c': Call) {
    forall g | g in m'.sessions && m'.sessions[g].once.Done? ::
      || (g in m.sessions && m.sessions[g] == m'.sessions[g])
      || (m'.sessions[g].once == Done(t) && c' == Ended(Stopped(g)))
  }

  lemma StopLasts(m: Shared, t: nat, c: Call)
    requires c.Stopping? && Known(m, t, c)
    ensures SessionsLast(m, Next(m, t, c).0) && NewlyDone(m, Next(m, t, c).0, t, Next(m, t, c).1)
  {
    hide Retire;
    if c.stop.Retiring? { RetireSessions(m, t, c.gen, Owns(m.sessions[c.gen].cfg), c.stop.retire); }
  }

  lemma RetireSessions(m: Shared, t: nat, g: nat, owns: bool, r: RetireStep)
    ensures Retire(m, t, g, owns, r).sessions == m.sessions
  {
  }

  lemma BuildLasts(m: Shared, t: nat, g: nat, cfg: Config, b: BuildStep)
    requires g !in m.sessions
    ensures
      var (m', c') := StepBuild(m, t, g, cfg, b);
      SessionsLast(m, m') && NewlyDone(m, m', t, c')
  {
  }

  lemma NextLasts(m: Shared, t: nat, c: Call)
    requires Known(m, t, c) && (m.owner.Builder? ==> m.owner.gen !in m.sessions)
    ensures SessionsLast(m, Next(m, t, c).0) && NewlyDone(m, Next(m, t, c).0, t, Next(m, t, c).1)
  {
    hide StepBuild, StepStop, Retire;
    match c
    case Building(g, cfg, b) => BuildLasts(m, t, g, cfg, b);
    case Failing(g, cfg, r) => RetireSessions(m, t, g, Owns(cfg), r);
    case Stopping(g, st) => StopLasts(m, t, c);
    case _ =>
  }

  lemma BuildTells(m: Shared, cfgs: map<nat, Config>, t: nat, c: Call)
    requires c.Building? && Tells(m, cfgs, t, c)
    ensures Tells(Next(m, t, c).0, cfgs, t, Next(m, t, c).1)
  {
  }

  lemma StopTells(m: Shared, cfgs: map<nat, Config>, t: nat, c: Call)
    requires c.Stopping? && Tells(m, cfgs, t, c) && Known(m, t, c)
    ensures Tells(Next(m, t, c).0, cfgs, t, Next(m, t, c).1)
  {
    hide Retire;
    if c.stop.Retiring? { RetireSessions(m, t, c.gen, Owns(m.sessions[c.gen].cfg), c.stop.retire); }
  }

  lemma NextTells(m: Shared, cfgs: map<nat, Config>, t: nat, c: Call)
    requires Tells(m, cfgs, t, c) && Known(m, t, c)
    ensures Tells(Next(m, t, c).0, cfgs, t, Next(m, t, c).1)
  {
    if c.Building? {
      BuildTells(m, cfgs, t, c);
      hide Tells, Next;
    } else if c.Stopping? {
      StopTells(m, cfgs, t, c);
      hide Tells, Next;
    } else {
      hide Works, OnWay, Retire, Known;
      if c.Failing? { RetireSessions(m, t, c.gen, Owns(c.cfg), c.retire); }
    }
  }

  lemma StillTells(m: Shared, m': Shared, cfgs: map<nat, Config>, t: nat, c: Call)
    requires Tells(m, cfgs, t, c) && SessionsLast(m, m')
    ensures Tells(m', cfgs, t, c)
  {
    hide Works, OnWay;
  }

  lemma AllTellStep(s: State, t: nat)
    requires Inv(s) && AllTell(s) && t in s.calls
    ensures AllTell(Step(s, t))
  {
    var c := s.calls[t];
    assert Known(s.m, t, c) && (s.m.owner.Builder? ==> s.m.owner.gen !in s.m.sessions) by { KnownOf(s, t); }
    hide Inv, Known, Tells, Next;
    NextTells(s.m, s.cfgs, t, c);
    NextLasts(s.m, t, c);
    EndedStays(s.m, t, c);
    OthersTell(s, Step(s, t), t);
  }

  lemma OthersTell(s: State, s': State, t: nat)
    requires AllTell(s) && Moved(s, s', t) && s'.cfgs == s.cfgs
    requires Tells(s'.m, s.cfgs, t, s'.calls[t]) && (s.calls[t].Ended? ==> s'.calls[t] == s.calls[t])
    requires SessionsLast(s.m, s'.m) && NewlyDone(s.m, s'.m, t, s'.calls[t])
    ensures AllTell(s')
  {
    hide Tells;
    forall u | u in s'.calls ensures Tells(s'.m, s.cfgs, u, s'.calls[u]) {
      if u != t { StillTells(s.m, s'.m, s.cfgs, u, s.calls[u]); }
    }
  }

  lemma EndedStays(m: Shared, t: nat, c: Call)
    ensures c.Ended? ==> Next(m, t, c) == (m, c)
  {
  }

  lemma NewTells(s: State, t: nat, c: Call, cfgs: map<nat, Config>)
    requires AllTell(s) && t !in s.calls
    requires (c.Entering? && cfgs == s.cfgs[t := c.cfg]) || (c.Shutting? && c.gen in s.m.sessions && cfgs == s.cfgs)
    ensures AllTell(State(s.m, s.calls[t := c], cfgs))
  {
    hide Works, OnWay;
    forall u | u in s.calls ensures Tells(s.m, cfgs, u, s.calls[u]) {
      assert Tells(s.m, s.cfgs, u, s.calls[u]);
    }
  }

  lemma PublishTells(s: State, name: nat)
    requires AllTell(s)
    ensures AllTell(Act(s, Publish(name)))
  {
    var s' := Act(s, Publish(name));
    hide Tells;
    forall u | u in s.calls ensures Tells(s'.m, s.cfgs, u, s.calls[u]) {
      StillTells(s.m, s'.m, s.cfgs, u, s.calls[u]);
    }
  }

  lemma {:induction false} RunTells(schedule: seq<Action>)
    ensures AllTell(Run(schedule))
  {
    if schedule != [] {
      var s, a := Run(schedule[..|schedule| - 1]), schedule[|schedule| - 1];
      RunTells(schedule[..|schedule| - 1]);
      RunKeeps(schedule[..|schedule| - 1]);
      hide AllTell, Step, Inv;
      match a
      case CallInit(t, cfg) => if t !in s.calls { NewTells(s, t, Entering(cfg), s.cfgs[t := cfg]); }
      case CallShutdown(t, g) => if t !in s.calls && g in s.m.sessions { NewTells(s, t, Shutting(g), s.cfgs); }
      case Tick(t) => if t in s.calls { AllTellStep(s, t); } else { TickNobody(s, t); }
      case Publish(name) => PublishTells(s, name);
    }
  }

  /** The schedule calls Init as call t with these arguments, and nothing else as call t before that. */
  ghost predicate CalledWith(schedule: seq<Action>, t: nat, cfg: Config) {
    exists i :: 0 <= i < |schedule| && schedule[i] == CallInit(t, cfg) && t !in Run(schedule[..i]).calls
  }

  lemma {:induction false} CfgsAreArguments(schedule: seq<Action>, t: nat)
    requires t in Run(schedule).cfgs
    ensures CalledWith(schedule, t, Run(schedule).cfgs[t])
  {
    if schedule != [] {
      var before, a := schedule[..|schedule| - 1], schedule[|schedule| - 1];
      if a.CallInit? && a.call == t && t !in Run(before).calls {
        assert schedule[|schedule| - 1] == CallInit(t, Run(schedule).cfgs[t]);
      } else {
        assert t in Run(before).cfgs && Run(before).cfgs[t] == Run(schedule).cfgs[t] by { hide Next; }
        CfgsAreArguments(before, t);
        var cfg := Run(before).cfgs[t];
        hide Run;
        var i :| 0 <= i < |before| && before[i] == CallInit(t, cfg) && t !in Run(before[..i]).calls;
        assert schedule[i] == before[i] && schedule[..i] == before[..i];
      }
    }
  }

  /** How an Init ends, in any schedule, is settled by the arguments it was called with and by what works: with
      arguments that are not valid it never gets to the mutex; past the guard it fails exactly if something it tries
      does, and else opens a session with these arguments. */
  lemma InitEndsAsConfigured(schedule: seq<Action>, t: nat)
    requires t in Run(schedule).cfgs
    ensures
      var s := Run(schedule);
      var cfg := s.cfgs[t];
      var works := cfg.resource && cfg.span && (cfg.supplied.None? ==> cfg.reader && cfg.runtime);
      && CalledWith(schedule, t, cfg) && t in s.calls
      && (!cfg.valid ==> s.calls[t] == Entering(cfg) || s.calls[t] == Ended(Invalid))
      && (s.calls[t].Ended? ==>
            match s.calls[t].end
            case Invalid => !cfg.valid
            case Refused => cfg.valid
            case Failed => cfg.valid && !works
            case Initialized(g) => cfg.valid && works && g in s.m.sessions && s.m.sessions[g].cfg == cfg
            case Stopped(_) => false
            case Again(_) => false)
  {
    CfgsAreArguments(schedule, t);
    RunTells(schedule);
    var s := Run(schedule);
    hide Run, CalledWith, Tells;
    assert t in s.calls && Tells(s.m, s.cfgs, t, s.calls[t]);
    hide AllTell;
    TellsOfInit(s.m, s.cfgs, t, s.calls[t]);
  }

  lemma TellsOfInit(m: Shared, cfgs: map<nat, Config>, t: nat, c: Call)
    requires Tells(m, cfgs, t, c) && t in cfgs
    ensures
      var cfg := cfgs[t];
      var works := cfg.resource && cfg.span && (cfg.supplied.None? ==> cfg.reader && cfg.runtime);
      && (!cfg.valid ==> c == Entering(cfg) || c == Ended(Invalid))
      && (c.Ended? ==>
            match c.end
            case Invalid => !cfg.valid
            case Refused => cfg.valid
            case Failed => cfg.valid && !works
            case Initialized(g) => cfg.valid && works && g in m.sessions && m.sessions[g].cfg == cfg
            case Stopped(_) => false
            case Again(_) => false)
  {
    hide OnWay;
  }

  /** How a shutdown ends: one call runs the closure of a session, and every other call of it that ends does so after
      that one has. */
  lemma ShutdownEndsOnce(schedule: seq<Action>, t: nat)
    requires t in Run(schedule).calls && t !in Run(schedule).cfgs && Run(schedule).calls[t].Ended?
    ensures
      var s := Run(schedule);
      match s.calls[t].end
      case Stopped(g) => forall u | u in s.calls && u != t :: s.calls[u] != Ended(Stopped(g))
      case Again(g) => exists u :: u in s.calls && s.calls[u] == Ended(Stopped(g))
      case _ => false
  {
    RunTells(schedule);
    var s := Run(schedule);
    hide Run;
    assert Tells(s.m, s.cfgs, t, s.calls[t]);
    forall u | u in s.calls ensures Tells(s.m, s.cfgs, u, s.calls[u]) {
    }
    if s.calls[t].end.Again? {
      assert s.calls[s.m.sessions[s.calls[t].end.gen].once.call] == Ended(Stopped(s.calls[t].end.gen));
    }
  }

  // ----- no call waits for ever -----

  /** What holds up a call: the mutex, or the once. */
  predicate HeldUp(m: Shared, c: Call) {
    || (m.mutex.Some? && (c.Waiting? || c == Stopping(About(c, m), Retiring(Retired))))
    || (c.Shutting? && (c.gen !in m.sessions || IsBusy(m.sessions[c.gen].once)))
  }

  lemma MovesUnlessHeld(m: Shared, t: nat, c: Call)
    requires !c.Ended? && !HeldUp(m, c) && (c.Stopping? ==> c.gen in m.sessions)
    ensures Next(m, t, c).1 != c
  {
    hide PutTracer, PutMeter, PutService, Retire;
  }

  lemma HolderMoves(s: State)
    requires Inv(s) && s.m.mutex.Some?
    ensures var u := s.m.mutex.value; u in s.calls && Next(s.m, u, s.calls[u]).1 != s.calls[u]
  {
    var u := s.m.mutex.value;
    assert Locked(s.calls[u]);
    assert Known(s.m, u, s.calls[u]) by { KnownOf(s, u); }
    hide Inv;
    MovesUnlessHeld(s.m, u, s.calls[u]);
  }

  /** While a call has not ended, some call can take a step: there is no deadlock, in any schedule. */
  lemma SomeCallMoves(schedule: seq<Action>, t: nat) returns (u: nat)
    requires t in Run(schedule).calls && !Run(schedule).calls[t].Ended?
    ensures var s := Run(schedule); u in s.calls && Step(s, u).calls[u] != s.calls[u]
  {
    RunKeeps(schedule);
    var s := Run(schedule);
    var c := s.calls[t];
    hide Run, Next;
    assert Known(s.m, t, c) by { KnownOf(s, t); }
    if s.m.mutex.Some? {
      u := s.m.mutex.value;
      HolderMoves(s);
    } else if HeldUp(s.m, c) {
      u := s.m.sessions[c.gen].once.call;
      assert ClosuresRunOnce(s);
      hide Inv;
      assert u in s.calls && s.calls[u].Stopping? && s.calls[u].gen == c.gen;
      MovesUnlessHeld(s.m, u, s.calls[u]);
    } else {
      u := t;
      hide Inv;
      MovesUnlessHeld(s.m, t, c);
    }
  }

  function BuildRank(b: BuildStep): nat {
    match b
    case NameService => 10
    case BuildResource => 9
    case BuildSpan => 8
    case InstallTracer => 7
    case InstallSupplied => 6
    case BuildReader => 6
    case InstallMeter => 5
    case StartRuntime => 4
    case AbandonMeter => 3
    case AbandonTracer => 2
    case Commit => 0
  }

  function RetireRank(r: RetireStep): nat {
    match r
    case RetireTracer => 3
    case RetireMeter => 2
    case RetireService => 1
    case Retired => 0
  }

  function StopRank(st: StopStep): nat {
    match st
    case StopTracer => 8
    case StopMeter => 7
    case Retiring(r) => 3 + RetireRank(r)
    case Clear => 2
    case Unlock => 1
    case LeaveOnce => 0
  }

  /** An upper bound for the steps that a call has ahead of it. */
  function Rank(c: Call): nat {
    match c
    case Entering(_) => 19
    case Waiting(_) => 18
    case Guarding(_) => 17
    case Building(_, _, b) => 6 + BuildRank(b)
    case Failing(_, _, r) => 2 + RetireRank(r)
    case Unlocking(_) => 1
    case Shutting(_) => 10
    case Stopping(_, st) => 1 + StopRank(st)
    case Ended(_) => 0
  }

  lemma NextRank(m: Shared, t: nat, c: Call)
    ensures Next(m, t, c) == (m, c) || Rank(Next(m, t, c).1) < Rank(c)
  {
    hide PutTracer, PutMeter, PutService, Retire;
  }

  ghost function Any(calls: map<nat, Call>): (t: nat)
    requires calls != map[]
    ensures t in calls
  {
    var t :| t in calls; t
  }

  /** The steps ahead of all the calls. */
  ghost function Ahead(calls: map<nat, Call>): nat {
    if calls == map[] then 0
    else var t := Any(calls); Rank(calls[t]) + Ahead(calls - {t})
  }

  lemma {:induction false} AheadAt(calls: map<nat, Call>, t: nat)
    requires t in calls
    ensures Ahead(calls) == Rank(calls[t]) + Ahead(calls - {t})
    decreases |calls|
  {
    var u := Any(calls);
    if u != t {
      AheadAt(calls - {u}, t);
      AheadAt(calls - {t}, u);
      assert calls - {u} - {t} == calls - {t} - {u};
    }
  }

  /** A step that changes anything brings its call nearer to its end. */
  lemma StepsRunOut(s: State, t: nat)
    requires Step(s, t) != s
    ensures Ahead(Step(s, t).calls) < Ahead(s.calls)
  {
    NextRank(s.m, t, s.calls[t]);
    hide Next, Rank, Ahead;
    var s' := Step(s, t);
    AheadAt(s.calls, t);
    AheadAt(s'.calls, t);
    assert s'.calls - {t} == s.calls - {t};
  }

  /** Whatever is called and however far the calls have come: they all end, if no new one comes, with no more steps than
      they have ahead of them. */
  lemma {:induction false} AllCallsEnd(schedule: seq<Action>) returns (more: seq<Action>)
    ensures forall a | a in more :: a.Tick?
    ensures
      var s := Run(schedule + more);
      s.calls.Keys == Run(schedule).calls.Keys && forall t | t in s.calls :: s.calls[t].Ended?
    ensures |more| <= Ahead(Run(schedule).calls)
    decreases Ahead(Run(schedule).calls)
  {
    hide Run, Step, Ahead;
    var s := Run(schedule);
    if t :| t in s.calls && !s.calls[t].Ended? {
      var u := SomeCallMoves(schedule, t);
      RunSnoc(schedule, Tick(u));
      StepsRunOut(s, u);
      var rest := AllCallsEnd(schedule + [Tick(u)]);
      more := [Tick(u)] + rest;
      assert schedule + more == schedule + [Tick(u)] + rest;
      StepKeys(s, u);
    } else {
      more := [];
      assert schedule + more == schedule;
    }
  }

  lemma StepKeys(s: State, t: nat)
    ensures Step(s, t).calls.Keys == s.calls.Keys
  {
    hide Next;
  }


  // ----- calls that are not interrupted -----

  /** n more steps of call t on its own. */
  function Alone(s: State, t: nat, n: nat): State
    decreases n
  {
    if n == 0 then s else Alone(Step(s, t), t, n - 1)
  }

  function Ticks(t: nat, n: nat): seq<Action> {
    seq(n, _ => Tick(t))
  }

  lemma AloneRuns(schedule: seq<Action>, t: nat, n: nat)
    ensures Alone(Run(schedule), t, n) == Run(schedule + Ticks(t, n))
    decreases n
  {
    hide Step;
    if n == 0 {
      assert schedule + Ticks(t, n) == schedule;
    } else {
      RunSnoc(schedule, Tick(t));
      AloneRuns(schedule + [Tick(t)], t, n - 1);
      assert schedule + Ticks(t, n) == schedule + [Tick(t)] + Ticks(t, n - 1);
    }
  }

  lemma AloneAdds(s: State, t: nat, m: nat, n: nat)
    ensures Alone(s, t, m + n) == Alone(Alone(s, t, m), t, n)
    decreases m
  {
    hide Step;
    if m > 0 { AloneAdds(Step(s, t), t, m - 1, n); }
  }

  predicate MeterAhead(b: BuildStep) {
    !b.StartRuntime? && !b.AbandonMeter? && !b.AbandonTracer? && !b.Commit?
  }

  /** How an Init ends that is at b in s and is left alone until s'. */
  predicate EndsWell(s: State, s': State, t: nat, g: nat, cfg: Config, b: BuildStep) {
    && t in s'.calls && s'.m.mutex.None? && s'.calls == s.calls[t := s'.calls[t]]
    && if Works(cfg, b) then
         && s'.calls[t] == Ended(Initialized(g)) && g in s'.m.sessions && s'.m.sessions[g] == Session(cfg, Fresh)
         && s'.m.meter == if MeterAhead(b) then Installed(g, cfg) else s.m.meter
       else
         && s'.calls[t] == Ended(Failed) && s'.m.meter == (if Owns(cfg) then Noop else s.m.meter)
         && s'.m.initialized == s.m.initialized && s'.m.tracer == Noop
  }

  /** One step of a build that is not its last. */
  lemma BuildOne(s: State, t: nat, g: nat, cfg: Config, b: BuildStep)
    requires t in s.calls && s.calls[t] == Building(g, cfg, b) && OnWay(cfg, b) && !b.Commit?
    ensures
      var s' := Step(s, t);
      && t in s'.calls && s'.calls == s.calls[t := s'.calls[t]]
      && s'.m.initialized == s.m.initialized
      && (|| (var c := s'.calls[t];
              && c.Building? && c.gen == g && c.cfg == cfg && OnWay(cfg, c.build) && BuildRank(c.build) < BuildRank(b)
              && (Works(cfg, b) <==> Works(cfg, c.build))
              && s'.m.meter ==
                   (if MeterAhead(b) && !MeterAhead(c.build) && !c.build.AbandonTracer? then Installed(g, cfg)
                    else s.m.meter))
          || (s'.calls[t] == Failing(g, cfg, RetireTracer) && !Works(cfg, b) && s'.m.meter == s.m.meter))
  {
  }

  lemma CommitOne(s: State, t: nat, g: nat, cfg: Config)
    requires t in s.calls && s.calls[t] == Building(g, cfg, Commit)
    ensures
      var m := s.m.(initialized := true, sessions := s.m.sessions[g := Session(cfg, Fresh)], owner := Open(g));
      Step(s, t) == State(m, s.calls[t := Unlocking(Initialized(g))], s.cfgs)
  {
    hide StepStop, Retire;
  }

  lemma UnlockOne(s: State, t: nat, e: End)
    requires t in s.calls && s.calls[t] == Unlocking(e)
    ensures Step(s, t) == State(s.m.(mutex := None), s.calls[t := Ended(e)], s.cfgs)
  {
    hide StepBuild, StepStop, Retire;
  }

  lemma CommitTwo(s: State, t: nat, g: nat, cfg: Config)
    requires t in s.calls && s.calls[t] == Building(g, cfg, Commit)
    ensures EndsWell(s, Alone(s, t, 2), t, g, cfg, Commit)
  {
    hide Step;
    CommitOne(s, t, g, cfg);
    var s1 := Step(s, t);
    UnlockOne(s1, t, Initialized(g));
    assert Alone(s, t, 2) == Alone(s1, t, 1) == Step(s1, t);
  }

  lemma FailFive(s: State, t: nat, g: nat, cfg: Config)
    requires t in s.calls && s.calls[t] == Failing(g, cfg, RetireTracer)
    ensures
      var s' := Alone(s, t, 5);
      && t in s'.calls && s'.m.mutex.None? && s'.calls == s.calls[t := s'.calls[t]]
      && s'.calls[t] == Ended(Failed) && s'.m.meter == (if Owns(cfg) then Noop else s.m.meter)
      && s'.m.initialized == s.m.initialized && s'.m.tracer == Noop
  {
    var s1 := Step(s, t);
    var s2 := Step(s1, t);
    assert s2.calls[t] == Failing(g, cfg, RetireService);
    var s3 := Step(s2, t);
    var s4 := Step(s3, t);
    assert s4.calls[t] == Unlocking(Failed);
    var s5 := Step(s4, t);
    assert Alone(s, t, 5) == Alone(s1, t, 4) == Alone(s2, t, 3) == Alone(s3, t, 2) == Alone(s4, t, 1) == s5;
  }

  lemma {:induction false} BuildAlone(s: State, t: nat, g: nat, cfg: Config, b: BuildStep) returns (n: nat)
    requires t in s.calls && s.calls[t] == Building(g, cfg, b) && OnWay(cfg, b)
    ensures EndsWell(s, Alone(s, t, n), t, g, cfg, b)
    decreases BuildRank(b)
  {
    if b.Commit? {
      n := 2;
      CommitTwo(s, t, g, cfg);
    } else {
      var s1 := Step(s, t);
      BuildOne(s, t, g, cfg, b);
      hide Step, OnWay, Works;
      if s1.calls[t].Failing? {
        n := 6;
        FailFive(s1, t, g, cfg);
      } else {
        var rest := BuildAlone(s1, t, g, cfg, s1.calls[t].build);
        n := rest + 1;
        BuildMeter(s, s1, Alone(s1, t, rest), t, g, cfg, b, s1.calls[t].build);
      }
    }
  }

  lemma BuildMeter(s: State, s1: State, s': State, t: nat, g: nat, cfg: Config, b: BuildStep, b1: BuildStep)
    requires EndsWell(s1, s', t, g, cfg, b1) && t in s1.calls && s1.calls == s.calls[t := s1.calls[t]]
    requires s1.m.initialized == s.m.initialized
    requires (Works(cfg, b) <==> Works(cfg, b1)) && (MeterAhead(b1) ==> MeterAhead(b))
    requires s1.m.meter ==
               if MeterAhead(b) && !MeterAhead(b1) && !b1.AbandonTracer? then Installed(g, cfg) else s.m.meter
    requires Owns(cfg) || Works(cfg, b) || MeterAhead(b1)
    ensures EndsWell(s, s', t, g, cfg, b)
  {
  }

  /** An Init that nothing interrupts ends in one of three ways, by what it was given and what works. */
  lemma InitAlone(s: State, t: nat, cfg: Config) returns (n: nat)
    requires t in s.calls && s.calls[t] == Entering(cfg) && cfg.valid && s.m.mutex.None? && !s.m.initialized
    ensures EndsWell(s, Alone(s, t, n), t, s.m.next, cfg, NameService)
  {
    var s1 := Step(s, t);
    assert s1 == s.(calls := s.calls[t := Waiting(cfg)]);
    var s2 := Step(s1, t);
    assert s2.calls == s.calls[t := Guarding(cfg)];
    var s3 := Step(s2, t);
    assert s3.calls == s.calls[t := Building(s.m.next, cfg, NameService)] && s3.m.meter == s.m.meter;
    hide Step;
    var rest := BuildAlone(s3, t, s.m.next, cfg, NameService);
    n := rest + 3;
    assert Alone(s, t, n) == Alone(s1, t, n - 1) == Alone(s2, t, n - 2) == Alone(s3, t, rest);
  }

  lemma ShutThree(s: State, t: nat, g: nat)
    requires t in s.calls && s.calls[t] == Shutting(g) && g in s.m.sessions && s.m.sessions[g].once.Fresh?
    ensures
      var s', cfg := Alone(s, t, 3), s.m.sessions[g].cfg;
      && s'.calls == s.calls[t := Stopping(g, Retiring(RetireTracer))] && s'.cfgs == s.cfgs
      && s'.m.mutex == s.m.mutex && s'.m.next == s.m.next && s'.m.meter == s.m.meter
      && s'.m.sessions == s.m.sessions[g := Session(cfg, Running(t))]
  {
    var s1 := Step(s, t);
    assert s1 == State(s.m.(sessions := s.m.sessions[g := Session(s.m.sessions[g].cfg, Running(t))]),
                       s.calls[t := Stopping(g, StopTracer)], s.cfgs) by { hide StepBuild, StepStop, Retire; }
    hide Step;
    StopOne(s1, t, g, StopTracer);
    var s2 := Step(s1, t);
    StopOne(s2, t, g, StopMeter);
    var s3 := Step(s2, t);
    assert Alone(s, t, 3) == Alone(s1, t, 2) == Alone(s2, t, 1) == s3;
  }

  lemma RetireOne(s: State, t: nat, g: nat, r: RetireStep)
    requires t in s.calls && s.calls[t] == Stopping(g, Retiring(r)) && g in s.m.sessions && !r.Retired?
    ensures
      var s' := Step(s, t);
      && s'.m == Retire(s.m, t, g, Owns(s.m.sessions[g].cfg), r) && s'.cfgs == s.cfgs
      && s'.calls == s.calls[t := Stopping(g, Retiring(NextRetire(r)))]
  {
    hide Retire;
  }

  lemma RetireThree(s: State, t: nat, g: nat)
    requires t in s.calls && s.calls[t] == Stopping(g, Retiring(RetireTracer)) && g in s.m.sessions
    ensures
      var s' := Alone(s, t, 3);
      && s'.calls == s.calls[t := Stopping(g, Retiring(Retired))] && s'.cfgs == s.cfgs
      && s'.m.mutex == s.m.mutex && s'.m.next == s.m.next && s'.m.sessions == s.m.sessions
      && s'.m.tracer == Noop && s'.m.service == None
      && s'.m.meter == if Owns(s.m.sessions[g].cfg) then Noop else s.m.meter
  {
    hide Step;
    var s1 := Step(s, t);
    RetireOne(s, t, g, RetireTracer);
    var s2 := Step(s1, t);
    RetireOne(s1, t, g, RetireMeter);
    var s3 := Step(s2, t);
    RetireOne(s2, t, g, RetireService);
    assert Alone(s, t, 3) == Alone(s1, t, 2) == Alone(s2, t, 1) == s3;
  }

  lemma StopOne(s: State, t: nat, g: nat, st: StopStep)
    requires t in s.calls && s.calls[t] == Stopping(g, st) && g in s.m.sessions
    ensures
      var (m, c) := StepStop(s.m, t, g, s.m.sessions[g].cfg, st);
      Step(s, t) == State(m, s.calls[t := c], s.cfgs)
  {
    hide StepStop;
  }

  lemma LeaveFour(s: State, t: nat, g: nat)
    requires t in s.calls && s.calls[t] == Stopping(g, Retiring(Retired)) && g in s.m.sessions && s.m.mutex.None?
    ensures
      var s', cfg := Alone(s, t, 4), s.m.sessions[g].cfg;
      && s'.calls == s.calls[t := Ended(Stopped(g))] && s'.cfgs == s.cfgs
      && s'.m.mutex == None && !s'.m.initialized && s'.m.next == s.m.next
      && s'.m.sessions == s.m.sessions[g := Session(cfg, Done(t))]
      && s'.m.tracer == s.m.tracer && s'.m.service == s.m.service && s'.m.meter == s.m.meter
  {
    hide Step;
    StopOne(s, t, g, Retiring(Retired));
    var s1 := Step(s, t);
    StopOne(s1, t, g, Clear);
    var s2 := Step(s1, t);
    StopOne(s2, t, g, Unlock);
    var s3 := Step(s2, t);
    StopOne(s3, t, g, LeaveOnce);
    var s4 := Step(s3, t);
    assert s4.m.sessions == s.m.sessions[g := Session(s.m.sessions[g].cfg, Done(t))];
    assert Alone(s, t, 4) == Alone(s1, t, 3) == Alone(s2, t, 2) == Alone(s3, t, 1) == s4;
  }

  /** Call t has shut down session g: it has returned, nothing is initialized, the globals are noops, but for the meter
      provider of a session that was given one, and the closure of g is done for good. */
  predicate ShutAlone(s: State, s': State, t: nat, g: nat, cfg: Config) {
    && s'.calls == s.calls[t := Ended(Stopped(g))] && s'.cfgs == s.cfgs
    && s'.m.mutex.None? && !s'.m.initialized && s'.m.next == s.m.next
    && s'.m.sessions == s.m.sessions[g := Session(cfg, Done(t))]
    && s'.m.tracer == Noop && s'.m.service == None && s'.m.meter == if cfg.supplied.None? then Noop else s.m.meter
  }

  /** A shutdown that nothing interrupts completes, and resets the meter provider, whoever published it, exactly when
      the session's Init was given none. */
  lemma ShutdownAlone(s: State, t: nat, g: nat)
    requires t in s.calls && s.calls[t] == Shutting(g) && g in s.m.sessions && s.m.sessions[g].once.Fresh?
    requires s.m.mutex.None?
    ensures ShutAlone(s, Alone(s, t, 10), t, g, s.m.sessions[g].cfg)
  {
    hide Step, Alone;
    ShutThree(s, t, g);
    RetireThree(Alone(s, t, 3), t, g);
    AloneAdds(s, t, 3, 3);
    LeaveFour(Alone(s, t, 6), t, g);
    AloneAdds(s, t, 6, 4);
  }

  lemma NewCall(schedule: seq<Action>, a: Action, t: nat)
    requires (a.CallInit? || a.CallShutdown?) && a.call == t && t !in Run(schedule).calls
    requires a.CallShutdown? ==> a.gen in Run(schedule).m.sessions
    ensures
      var s, s' := Run(schedule), Run(schedule + [a]);
      && s'.m == s.m && s'.calls == s.calls[t := if a.CallInit? then Entering(a.cfg) else Shutting(a.gen)]
      && s'.cfgs == if a.CallInit? then s.cfgs[t := a.cfg] else s.cfgs
  {
    RunSnoc(schedule, a);
  }

  /** A provider that another component supplied is reset by an Init that fails, at its resource or later, before or
      after it has made any other provider global, unless that Init was given one too. */
  lemma SuppliedIsReset(name: nat, cfg: Config) returns (n: nat)
    requires cfg.valid && !Works(cfg, NameService)
    ensures
      var before := [Publish(name), CallInit(0, cfg)];
      var after := Run(before + Ticks(0, n));
      && Run(before).m.meter == Supplied(name)
      && 0 in after.calls && after.calls[0] == Ended(Failed)
      && after.m.meter == if cfg.supplied.None? then Noop else Supplied(name)
  {
    var publish: seq<Action> := [Publish(name)];
    var before := [Publish(name), CallInit(0, cfg)];
    assert before == publish + [CallInit(0, cfg)] && publish == [] + [Publish(name)];
    RunSnoc([], Publish(name));
    RunSnoc(publish, CallInit(0, cfg));
    hide Step, Works;
    n := InitAlone(Run(before), 0, cfg);
    AloneRuns(before, 0, n);
  }

  lemma OpensAlone(cfg: Config) returns (done: seq<Action>)
    requires cfg.valid && Works(cfg, NameService)
    ensures Run(done).calls == map[0 := Ended(Initialized(0))]
    ensures 0 in Run(done).m.sessions && Run(done).m.sessions[0] == Session(cfg, Fresh)
    ensures Run(done).m.mutex.None?
  {
    var open: seq<Action> := [CallInit(0, cfg)];
    assert open == [] + [CallInit(0, cfg)];
    NewCall([], CallInit(0, cfg), 0);
    hide Step, Works;
    var n := InitAlone(Run(open), 0, cfg);
    AloneRuns(open, 0, n);
    done := open + Ticks(0, n);
  }

  /** ... and by the shutdown of a session that is open all the while, though no Init has failed, unless its Init was
      given one. */
  lemma SuppliedIsResetByShutdown(name: nat, cfg: Config) returns (before: seq<Action>)
    requires cfg.valid && Works(cfg, NameService)
    ensures
      var s := Run(before);
      && s.m.meter == Supplied(name)
      && forall t | t in s.calls :: s.calls[t] == Ended(Initialized(0)) || s.calls[t] == Shutting(0)
    ensures Run(before + Ticks(1, 10)).m.meter == if cfg.supplied.None? then Noop else Supplied(name)
  {
    hide Step, Works, Run, Alone;
    var done := OpensAlone(cfg);
    RunSnoc(done, Publish(name));
    var published := done + [Publish(name)];
    NewCall(published, CallShutdown(1, 0), 1);
    before := published + [CallShutdown(1, 0)];
    ShutdownAlone(Run(before), 1, 0);
    AloneRuns(before, 1, 10);
  }

  /** After a shutdown Init may be called again. From any reachable state with a session whose shutdown has not been
      called, and the mutex free: a shutdown, let run, returns with the session closed, and an Init called next opens a
      session of its own, with the globals its own, or fails, as its configuration says. */
  lemma InitAfterShutdown(schedule: seq<Action>, g: nat, t: nat, u: nat, cfg: Config) returns (n: nat)
    requires var m := Run(schedule).m; g in m.sessions && m.sessions[g].once.Fresh? && m.mutex.None?
    requires t !in Run(schedule).calls && u !in Run(schedule).calls && t != u && cfg.valid
    ensures
      var closed := schedule + [CallShutdown(t, g)] + Ticks(t, 10);
      && ShutAlone(Run(schedule), Run(closed), t, g, Run(schedule).m.sessions[g].cfg)
      && var (h, s) := (Run(schedule).m.next, Run(closed + [CallInit(u, cfg)] + Ticks(u, n)));
         && u in s.calls && s.m.mutex.None?
         && if cfg.resource && cfg.span && (cfg.supplied.None? ==> cfg.reader && cfg.runtime) then
              && s.calls[u] == Ended(Initialized(h)) && s.m.initialized
              && h in s.m.sessions && s.m.sessions[h] == Session(cfg, Fresh)
              && s.m.tracer == Created(h) && s.m.service == Some(h) && s.m.meter == Installed(h, cfg)
            else s.calls[u] == Ended(Failed) && !s.m.initialized && s.m.tracer == Noop && s.m.service == None
  {
    hide Step, Run, Alone, Works;
    var s := Run(schedule);
    var called := schedule + [CallShutdown(t, g)];
    var closed := called + Ticks(t, 10);
    NewCall(schedule, CallShutdown(t, g), t);
    ShutdownAlone(Run(called), t, g);
    AloneRuns(called, t, 10);
    assert s.calls[t := Shutting(g)][t := Ended(Stopped(g))] == s.calls[t := Ended(Stopped(g))];
    assert Run(closed).calls == s.calls[t := Ended(Stopped(g))];
    var again := closed + [CallInit(u, cfg)];
    NewCall(closed, CallInit(u, cfg), u);
    n := InitAlone(Run(again), u, cfg);
    AloneRuns(again, u, n);
    WorksFromStart(cfg);
    if Works(cfg, NameService) {
      OpenSessionOwnsGlobals(again + Ticks(u, n), s.m.next);
    } else {
      IdleMeansNoop(again + Ticks(u, n));
    }
  }

  lemma WorksFromStart(cfg: Config)
    ensures
      Works(cfg, NameService) <==> cfg.resource && cfg.span && (cfg.supplied.None? ==> cfg.reader && cfg.runtime)
  {
  }

  /** A shutdown may be called more than once: when its closure has run, a call of it ends with one step that changes
      nothing else. */
  lemma ShutdownAgain(schedule: seq<Action>, t: nat, u: nat, g: nat)
    requires t in Run(schedule).calls && Run(schedule).calls[t] == Ended(Stopped(g)) && u !in Run(schedule).calls
    ensures
      var s := Run(schedule);
      Run(schedule + [CallShutdown(u, g), Tick(u)]) == s.(calls := s.calls[u := Ended(Again(g))])
  {
    RunTells(schedule);
    var s := Run(schedule);
    hide Run;
    assert Tells(s.m, s.cfgs, t, s.calls[t]);
    RunSnoc(schedule, CallShutdown(u, g));
    RunSnoc(schedule + [CallShutdown(u, g)], Tick(u));
    assert schedule + [CallShutdown(u, g), Tick(u)] == schedule + [CallShutdown(u, g)] + [Tick(u)];
    hide AllTell, Tells;
    assert s.calls[u := Shutting(g)][u := Ended(Again(g))] == s.calls[u := Ended(Again(g))];
  }
}
