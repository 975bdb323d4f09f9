/** What Init and the shutdown closures promise, over every schedule. */
module LifecycleRuns {
  import opened Wrappers
  import opened Lifecycle

  // ----- the globals of an open session -----

  lemma RunSnoc(schedule: seq<Action>, a: Action)
    ensures Run(schedule + [a]) == Act(Run(schedule), a)
  {
    assert (schedule + [a])[..|schedule|] == schedule;
  }

  /** Another component has published its meter provider after Init number g had passed the guard. */
  ghost predicate PublishedSince(schedule: seq<Action>, g: nat) {
    exists i :: 0 <= i < |schedule| && schedule[i].Publish? && Run(schedule[..i]).m.next > g
  }

  lemma StepPublishes(m: Shared, t: nat, c: Call)
    ensures Next(m, t, c).0.h.published == m.h.published
  {
  }

  lemma {:induction false} PublishedWhen(schedule: seq<Action>, g: nat)
    requires Run(schedule).m.h.published > g
    ensures PublishedSince(schedule, g)
  {
    if schedule != [] {
      var before, a := schedule[..|schedule| - 1], schedule[|schedule| - 1];
      if a.Publish? {
        assert schedule[|schedule| - 1].Publish? && Run(schedule[..|schedule| - 1]).m.next > g;
      } else {
        if a.Tick? && a.call in Run(before).calls { StepPublishes(Run(before).m, a.call, Run(before).calls[a.call]); }
        hide Next;
        PublishedWhen(before, g);
        var i :| 0 <= i < |before| && before[i].Publish? && Run(before[..i]).m.next > g;
        assert schedule[i] == before[i] && schedule[..i] == before[..i];
      }
    }
  }

  /** From the moment Init number g returns until its shutdown is first called, the globals are its own, whatever
      other Init and shutdown calls do meanwhile, and its providers are running: the tracer, the service name, and,
      unless another component has published one since, the meter provider it created or was given. */
  lemma OpenSessionOwnsGlobals(schedule: seq<Action>, g: nat)
    requires g in Run(schedule).m.sessions && Run(schedule).m.sessions[g].once.Fresh?
    ensures
      var m := Run(schedule).m;
      var cfg := m.sessions[g].cfg;
      && m.tracer == Created(g) && m.service == Some(g) && m.initialized
      && (m.meter == Installed(g, cfg) || (PublishedSince(schedule, g) && m.meter.Supplied?))
      && Tracer(g) in m.h.made && m.h.shut[Tracer(g)] == 0
      && (Owns(cfg) <==> Meter(g) in m.h.made) && m.h.shut[Meter(g)] == 0
  {
    RunKeeps(schedule);
    if Run(schedule).m.h.published > g { PublishedWhen(schedule, g); }
    assert OpenIs(Seen(Run(schedule).m, g), g, Run(schedule).m.sessions[g].cfg);
  }

  /** The call may write the globals: it is the Init past the guard, or runs the closure of the open session. */
  predicate MayWrite(m: Shared, t: nat, c: Call) {
    || (Past(c) && m.mutex == Some(t) && !m.initialized)
    || (c.Stopping? && m.initialized && c.gen in m.sessions && m.sessions[c.gen].once == Running(t))
  }

  predicate SameGlobals(m: Shared, m': Shared) {
    m'.tracer == m.tracer && m'.meter == m.meter && m'.service == m.service
  }

  lemma OnlyOwnerSteps(m: Shared, t: nat, c: Call)
    requires Known(m, t, c) && (m.initialized <==> m.owner.Open?)
    ensures SameGlobals(m, Next(m, t, c).0) || MayWrite(m, t, c)
  {
  }

  /** The globals change only by the Init past the guard, which holds initMu while no session is open, by the closure of
      the one open session, or, the meter provider, by another component. */
  lemma OnlyOwnerWrites(schedule: seq<Action>, a: Action)
    requires !SameGlobals(Run(schedule).m, Run(schedule + [a]).m)
    ensures
      var s := Run(schedule);
      || (a.Publish? && Run(schedule + [a]).m.tracer == s.m.tracer && Run(schedule + [a]).m.service == s.m.service)
      || (a.Tick? && a.call in s.calls && MayWrite(s.m, a.call, s.calls[a.call]))
  {
    RunSnoc(schedule, a);
    RunKeeps(schedule);
    var s := Run(schedule);
    hide Run;
    if a.Tick? && a.call in s.calls {
      KnownOf(s, a.call);
      assert s.m.initialized <==> s.m.owner.Open?;
      hide Inv, Next, MayWrite, SameGlobals, Known;
      OnlyOwnerSteps(s.m, a.call, s.calls[a.call]);
      assert Step(s, a.call).m == Next(s.m, a.call, s.calls[a.call]).0;
    }
  }

  /** So while a session is open and its shutdown has not been called, no step of any call changes a global. */
  lemma OpenSessionUndisturbed(schedule: seq<Action>, g: nat, t: nat)
    requires g in Run(schedule).m.sessions && Run(schedule).m.sessions[g].once.Fresh?
    ensures SameGlobals(Run(schedule).m, Run(schedule + [Tick(t)]).m)
  {
    RunKeeps(schedule);
    var s := Run(schedule);
    assert s.m.owner == Open(g) && s.m.initialized;
    if !SameGlobals(s.m, Run(schedule + [Tick(t)]).m) {
      OnlyOwnerWrites(schedule, Tick(t));
    }
  }

  /** A provider that Init number g made global is replaced only by that Init failing, by its own shutdown, or, for
      meters, by a component outside. */
  lemma OnlyOwnerTakesDown(schedule: seq<Action>, a: Action, g: nat)
    ensures
      var s := Run(schedule);
      var s' := Run(schedule + [a]);
      && (s.m.tracer == Created(g) != s'.m.tracer ==>
            a.Tick? && a.call in s.calls && (s.calls[a.call].Failing? || s.calls[a.call].Stopping?)
              && s.calls[a.call].gen == g)
      && (s.m.meter == Created(g) != s'.m.meter ==>
            a.Publish? ||
            (a.Tick? && a.call in s.calls && (s.calls[a.call].Failing? || s.calls[a.call].Stopping?)
             && s.calls[a.call].gen == g))
  {
    RunKeeps(schedule);
    assert (schedule + [a])[..|schedule|] == schedule;
    var s := Run(schedule);
    if a.Tick? && a.call in s.calls {
      hide Inv, Step;
      TakesDown(s, a.call, g);
    }
  }

  /** A build takes nothing down that an Init made global. */
  lemma BuildTakesNone(m: Shared, t: nat, g: nat, cfg: Config, b: BuildStep)
    requires BuildingIs(Seen(m, g), g, cfg, b)
    ensures m.tracer.Created? ==> StepBuild(m, t, g, cfg, b).0.tracer == m.tracer
    ensures m.meter.Created? ==> StepBuild(m, t, g, cfg, b).0.meter == m.meter
  {
  }

  lemma CreatedByOwner(s: State, g: nat)
    requires GlobalsOwned(s) && (s.m.tracer == Created(g) || s.m.meter == Created(g))
    ensures OwnerGen(s.m.owner) == g
  {
    hide StatusOf;
  }

  lemma TakesDown(s: State, t: nat, g: nat)
    requires Inv(s) && t in s.calls
    ensures (s.m.tracer == Created(g) != Step(s, t).m.tracer) || (s.m.meter == Created(g) != Step(s, t).m.meter) ==>
              (s.calls[t].Failing? || s.calls[t].Stopping?) && s.calls[t].gen == g
  {
    var c := s.calls[t];
    assert Known(s.m, t, c) && GlobalsOwned(s) && (s.m.initialized <==> s.m.owner.Open?) by { KnownOf(s, t); }
    if c.Building? {
      assert BuildingIs(Seen(s.m, c.gen), c.gen, c.cfg, c.build);
      BuildTakesNone(s.m, t, c.gen, c.cfg, c.build);
      hide StepBuild;
    } else if s.m.tracer == Created(g) || s.m.meter == Created(g) {
      CreatedByOwner(s, g);
      OnlyOwnerSteps(s.m, t, c);
      hide Inv, GlobalsOwned, Next;
    }
  }

  // ----- providers -----

  /** An Init turned away, with ErrAlreadyInitialized or at its arguments, and a repeated shutdown have written no
      global. */
  lemma TurnedAwayWritesNothing(schedule: seq<Action>, t: nat)
    requires
      var s := Run(schedule);
      t in s.calls && s.calls[t].Ended? && var e := s.calls[t].end; e.Refused? || e.Invalid? || e.Again?
    ensures forall w | w in Run(schedule).m.h.writes :: w.call != t
  {
    RunKeeps(schedule);
  }

  /** When no Init is past the guard and no session is open, as after every failed Init and every completed shutdown,
      the tracer is the noop, or the default one when no Init was ever past the guard; no meter of Init's is left and
      the service name is empty. */
  lemma IdleMeansNoop(schedule: seq<Action>)
    requires !Run(schedule).m.initialized && Run(schedule).m.mutex.None?
    ensures
      var m := Run(schedule).m;
      m.tracer == (if m.next == 0 then Default else Noop) && m.service == None && !m.meter.Created?
  {
    RunKeeps(schedule);
  }

  lemma NeverWrong(s: State, p: Provision)
    requires GlobalsOwned(s) && OthersGone(s)
    ensures !StatusOf(s.m, p).Wrong?
    ensures StatusOf(s.m, p).Live? ==> p.gen == OwnerGen(s.m.owner)
  {
    hide StatusOf;
    assert p.gen != OwnerGen(s.m.owner) ==> Over(StatusOf(s.m, p));
    if p.gen == OwnerGen(s.m.owner) {
      var v := Seen(s.m, p.gen);
      assert p == Tracer(p.gen) || p == Meter(p.gen);
      assert !v.tp.Wrong? && !v.mp.Wrong?;
    }
  }

  /** Every provider that Init creates is shut down at most once, and none that it did not create; those still running
      are all of one Init, and once nobody owns the globals every one has been shut down, exactly once. */
  lemma ProvidersShutOnce(schedule: seq<Action>)
    ensures
      var m := Run(schedule).m;
      && (forall p :: m.h.shut[p] <= (if p in m.h.made then 1 else 0))
      && (forall p, q | p in m.h.made && q in m.h.made && m.h.shut[p] == 0 && m.h.shut[q] == 0 :: p.gen == q.gen)
      && (!m.initialized && m.mutex.None? ==> forall p | p in m.h.made :: m.h.shut[p] == 1)
  {
    hide Run, Inv;
    var s := Run(schedule);
    assert GlobalsOwned(s) && OthersGone(s) && (!s.m.initialized && s.m.mutex.None? ==> s.m.owner.Nobody?) by {
      OwnedOf(schedule);
    }
    forall p: Provision
      ensures s.m.h.shut[p] <= (if p in s.m.h.made then 1 else 0)
      ensures p in s.m.h.made && s.m.h.shut[p] == 0 ==> p.gen == OwnerGen(s.m.owner)
    {
      NeverWrong(s, p);
    }
    hide GlobalsOwned, OthersGone;
  }

  lemma OwnedOf(schedule: seq<Action>)
    ensures
      var s := Run(schedule);
      GlobalsOwned(s) && OthersGone(s) && (!s.m.initialized && s.m.mutex.None? ==> s.m.owner.Nobody?)
  {
    hide Run, GlobalsOwned, OthersGone;
    RunKeeps(schedule);
  }

  /** An Init that was given a MeterProvider never has one of its own: there is none to shut down. */
  ghost predicate SuppliedLeftAlone(m: Shared) {
    forall g | g in m.h.given && !Owns(m.h.given[g]) :: Meter(g) !in m.h.made && m.h.shut[Meter(g)] == 0
  }

  lemma BuildSupplied(m: Shared, t: nat, g: nat, cfg: Config, b: BuildStep, s: nat)
    requires s != g || (!Owns(cfg) && !b.BuildReader? && !b.AbandonMeter?)
    ensures Meter(s) in StepBuild(m, t, g, cfg, b).0.h.made <==> Meter(s) in m.h.made
    ensures StepBuild(m, t, g, cfg, b).0.h.shut[Meter(s)] == m.h.shut[Meter(s)]
  {
  }

  lemma StopSupplied(m: Shared, t: nat, g: nat, cfg: Config, st: StopStep, s: nat)
    requires s != g || !Owns(cfg)
    ensures Meter(s) in StepStop(m, t, g, cfg, st).0.h.made <==> Meter(s) in m.h.made
    ensures StepStop(m, t, g, cfg, st).0.h.shut[Meter(s)] == m.h.shut[Meter(s)]
  {
  }

  /** Only the owner creates or shuts down, and meter providers only when it was given none. */
  lemma SuppliedStatus(m: Shared, t: nat, c: Call, g: nat)
    requires ConfigKnown(m, c, About(c, m)) && g in m.h.given && !Owns(m.h.given[g])
    requires c.Building? && (c.build.BuildReader? || c.build.AbandonMeter?) ==> Owns(c.cfg)
    ensures Meter(g) in Next(m, t, c).0.h.made <==> Meter(g) in m.h.made
    ensures Next(m, t, c).0.h.shut[Meter(g)] == m.h.shut[Meter(g)]
  {
    if c.Building? {
      BuildSupplied(m, t, c.gen, c.cfg, c.build, g);
      hide StepBuild;
    } else if c.Stopping? {
      if c.gen in m.sessions { StopSupplied(m, t, c.gen, m.sessions[c.gen].cfg, c.stop, g); }
      hide StepStop;
    } else {
      OtherStatus(m, t, c);
      hide Next;
    }
  }

  lemma GuardMakesNone(m: Shared, t: nat, c: Call)
    requires c.Guarding?
    ensures Next(m, t, c).0.h.made == m.h.made && Next(m, t, c).0.h.shut == m.h.shut
  {
  }

  lemma SuppliedStep(s: State, t: nat)
    requires Inv(s) && SuppliedLeftAlone(s.m) && t in s.calls
    ensures SuppliedLeftAlone(Step(s, t).m)
  {
    var c := s.calls[t];
    assert Known(s.m, t, c) by { KnownOf(s, t); }
    assert ConfigKnown(s.m, c, About(c, s.m));
    assert c.Building? && (c.build.BuildReader? || c.build.AbandonMeter?) ==> Owns(c.cfg) by {
      KnownOf(s, t);
      if c.Building? { assert BuildingIs(Seen(s.m, c.gen), c.gen, c.cfg, c.build); }
    }
    assert StatusOf(s.m, Meter(s.m.next)) == Unmade;
    NextGiven(s.m, t, c);
    if c.Guarding? { GuardMakesNone(s.m, t, c); }
    assert Meter(s.m.next) !in s.m.h.made && s.m.h.shut[Meter(s.m.next)] == 0;
    hide Inv, Next, Known, ConfigKnown, StatusOf;
    forall g | g in Step(s, t).m.h.given && !Owns(Step(s, t).m.h.given[g])
      ensures Meter(g) !in Step(s, t).m.h.made && Step(s, t).m.h.shut[Meter(g)] == 0
    {
      if c.Guarding? && !s.m.initialized {
        assert g in s.m.h.given || g == s.m.next;
      } else {
        SuppliedStatus(s.m, t, c, g);
      }
    }
  }

  /** With Config.MeterProvider set, Init neither creates nor shuts down a meter provider, whether it failed, is still
      at work, or opened a session, and whatever has become of that. */
  lemma {:induction false} SuppliedNeverShut(schedule: seq<Action>)
    ensures SuppliedLeftAlone(Run(schedule).m)
  {
    if schedule != [] {
      var before, a := schedule[..|schedule| - 1], schedule[|schedule| - 1];
      SuppliedNeverShut(before);
      RunKeeps(before);
      hide Next, Inv, SuppliedLeftAlone;
      if a.Tick? {
        if a.call in Run(before).calls { SuppliedStep(Run(before), a.call); }
      } else {
        SuppliedElse(Run(before), a);
      }
    }
  }

  lemma SuppliedElse(s: State, a: Action)
    requires !a.Tick? && SuppliedLeftAlone(s.m)
    ensures SuppliedLeftAlone(Act(s, a).m)
  {
  }

  // ----- when the meter provider is reset -----

  predicate PastMeter(r: RetireStep) { r.RetireService? || r.Retired? }

  /** What a call carries with it, or has left behind. */
  predicate Knows(m: Shared, cfgs: map<nat, Config>, t: nat, c: Call) {
    && (c.Entering? || c.Waiting? || c.Guarding? || Past(c) ==> t in cfgs && cfgs[t] == c.cfg)
    && (c == Unlocking(Failed) || c == Ended(Failed) ==> t in cfgs)
    && (c.Stopping? ==> c.gen in m.h.given)
    && ((c.Unlocking? || c.Ended?) && c.end.Stopped? ==> c.end.gen in m.h.given)
  }

  /** The call has retired, by failing or by running a closure, as far as the meter provider, and its Init was given
      none. */
  predicate HasReset(m: Shared, cfgs: map<nat, Config>, t: nat, c: Call)
    requires Knows(m, cfgs, t, c)
  {
    match c
    case Failing(_, cfg, r) => Owns(cfg) && PastMeter(r)
    case Stopping(g, Retiring(r)) => Owns(m.h.given[g]) && PastMeter(r)
    case Stopping(g, st) => Owns(m.h.given[g]) && (st.Clear? || st.Unlock? || st.LeaveOnce?)
    case Unlocking(e) => if e.Failed? then Owns(cfgs[t]) else e.Stopped? && Owns(m.h.given[e.gen])
    case Ended(e) => if e.Failed? then Owns(cfgs[t]) else e.Stopped? && Owns(m.h.given[e.gen])
    case _ => false
  }

  /** It has written the noop over the meter provider exactly if it has, and then it is known over which. */
  predicate Remembered(m: Shared, cfgs: map<nat, Config>, t: nat, c: Call) {
    && Knows(m, cfgs, t, c)
    && (SetMeter(t, Noop) in m.h.writes <==> HasReset(m, cfgs, t, c))
    && (t in m.h.reset <==> HasReset(m, cfgs, t, c))
  }

  ghost predicate AllRemembered(s: State) {
    && (forall t | t in s.calls :: Remembered(s.m, s.cfgs, t, s.calls[t]))
    && (forall t | t in s.m.h.reset :: t in s.calls)
  }

  predicate ResetsNow(m: Shared, c: Call) {
    || (c.Failing? && c.retire.RetireMeter? && Owns(c.cfg))
    || (c.Stopping? && c.stop == Retiring(RetireMeter) && c.gen in m.sessions && Owns(m.sessions[c.gen].cfg))
  }

  lemma BuildResets(m: Shared, t: nat, g: nat, cfg: Config, b: BuildStep)
    ensures SetMeter(t, Noop) in StepBuild(m, t, g, cfg, b).0.h.writes <==> SetMeter(t, Noop) in m.h.writes
    ensures StepBuild(m, t, g, cfg, b).0.h.reset == m.h.reset
  {
  }

  lemma RetireResets(m: Shared, t: nat, g: nat, owns: bool, r: RetireStep)
    ensures
      var h, h' := m.h, Retire(m, t, g, owns, r).h;
      && (SetMeter(t, Noop) in h'.writes <==> SetMeter(t, Noop) in h.writes || (owns && r.RetireMeter?))
      && h'.reset == if owns && r.RetireMeter? then h.reset[t := Overwrite(g, m.meter, Meter(g) in h.made)] else h.reset
  {
  }

  lemma StopResets(m: Shared, t: nat, g: nat, cfg: Config, st: StopStep)
    ensures
      var h, h' := m.h, StepStop(m, t, g, cfg, st).0.h;
      var resets := Owns(cfg) && st == Retiring(RetireMeter);
      && (SetMeter(t, Noop) in h'.writes <==> SetMeter(t, Noop) in h.writes || resets)
      && h'.reset == if resets then h.reset[t := Overwrite(g, m.meter, Meter(g) in h.made)] else h.reset
  {
    hide Retire;
    if st.Retiring? { RetireResets(m, t, g, Owns(cfg), st.retire); }
  }

  /** The only steps that reset, and what they remember of it. */
  lemma NextResets(m: Shared, t: nat, c: Call)
    ensures SetMeter(t, Noop) in Next(m, t, c).0.h.writes <==> SetMeter(t, Noop) in m.h.writes || ResetsNow(m, c)
    ensures
      var reset' := Next(m, t, c).0.h.reset;
      reset' ==
        if ResetsNow(m, c) then m.h.reset[t := Overwrite(c.gen, m.meter, Meter(c.gen) in m.h.made)] else m.h.reset
  {
    hide StepBuild, StepStop, Retire;
    match c
    case Building(g, cfg, b) => BuildResets(m, t, g, cfg, b);
    case Failing(g, cfg, r) => RetireResets(m, t, g, Owns(cfg), r);
    case Stopping(g, st) => if g in m.sessions { StopResets(m, t, g, m.sessions[g].cfg, st); }
    case _ =>
  }

  lemma NextKnows(m: Shared, cfgs: map<nat, Config>, t: nat, c: Call)
    requires Knows(m, cfgs, t, c) && Known(m, t, c) && ConfigKnown(m, c, About(c, m))
    ensures Knows(Next(m, t, c).0, cfgs, t, Next(m, t, c).1)
  {
  }

  lemma StopHasReset(m: Shared, cfgs: map<nat, Config>, t: nat, c: Call)
    requires c.Stopping? && Knows(m, cfgs, t, c) && Known(m, t, c) && ConfigKnown(m, c, c.gen)
    requires Knows(Next(m, t, c).0, cfgs, t, Next(m, t, c).1)
    ensures HasReset(Next(m, t, c).0, cfgs, t, Next(m, t, c).1) <==> HasReset(m, cfgs, t, c) || ResetsNow(m, c)
  {
  }

  lemma OtherHasReset(m: Shared, cfgs: map<nat, Config>, t: nat, c: Call)
    requires !c.Stopping? && Knows(m, cfgs, t, c) && Knows(Next(m, t, c).0, cfgs, t, Next(m, t, c).1)
    ensures HasReset(Next(m, t, c).0, cfgs, t, Next(m, t, c).1) <==> HasReset(m, cfgs, t, c) || ResetsNow(m, c)
  {
  }

  lemma RememberedStep(m: Shared, cfgs: map<nat, Config>, t: nat, c: Call)
    requires Remembered(m, cfgs, t, c) && Known(m, t, c) && ConfigKnown(m, c, About(c, m))
    ensures Remembered(Next(m, t, c).0, cfgs, t, Next(m, t, c).1)
  {
    hide Next, Knows, HasReset, ResetsNow, Known, ConfigKnown;
    NextKnows(m, cfgs, t, c);
    NextResets(m, t, c);
    if c.Stopping? {
      assert About(c, m) == c.gen;
      StopHasReset(m, cfgs, t, c);
    } else {
      OtherHasReset(m, cfgs, t, c);
    }
  }

  /** The steps of others do not matter. */
  lemma OthersRemembered(m: Shared, m': Shared, cfgs: map<nat, Config>, t: nat, u: nat, c: Call)
    requires Remembered(m, cfgs, u, c) && u != t
    requires OneMore(m.h.writes, m'.h.writes, t)
    requires m'.h.reset == m.h.reset || (t in m'.h.reset && m'.h.reset == m.h.reset[t := m'.h.reset[t]])
    requires forall g | g in m.h.given :: g in m'.h.given && m'.h.given[g] == m.h.given[g]
    ensures Remembered(m', cfgs, u, c)
  {
    if m'.h.writes != m.h.writes { assert m'.h.writes == m.h.writes + [m'.h.writes[|m.h.writes|]]; }
  }

  lemma AllRememberedStep(s: State, t: nat)
    requires Inv(s) && AllRemembered(s) && t in s.calls
    ensures AllRemembered(Step(s, t))
  {
    var c := s.calls[t];
    assert Known(s.m, t, c) && ConfigKnown(s.m, c, About(c, s.m)) && s.m.next !in s.m.h.given by { KnownOf(s, t); }
    hide Inv, Next, Known, ConfigKnown, Remembered, Silent, About;
    RememberedStep(s.m, s.cfgs, t, c);
    StepWrites(s.m, t, c);
    NextResets(s.m, t, c);
    NextGiven(s.m, t, c);
    forall u | u in s.calls && u != t ensures Remembered(Step(s, t).m, s.cfgs, u, s.calls[u]) {
      OthersRemembered(s.m, Step(s, t).m, s.cfgs, t, u, s.calls[u]);
    }
  }

  lemma NewRemembered(s: State, t: nat, c: Call, cfgs: map<nat, Config>)
    requires Inv(s) && AllRemembered(s) && t !in s.calls
    requires cfgs == s.cfgs || (c.Entering? && cfgs == s.cfgs[t := c.cfg])
    requires c.Shutting? || (c.Entering? && t in cfgs && cfgs[t] == c.cfg)
    ensures AllRemembered(State(s.m, s.calls[t := c], cfgs))
  {
    assert WritersPastGuard(s);
    hide Inv;
    assert forall w | w in s.m.h.writes :: w.call != t;
    assert Remembered(s.m, cfgs, t, c) by { hide WritersPastGuard; }
    forall u | u in s.calls ensures Remembered(s.m, cfgs, u, s.calls[u]) {
      assert Remembered(s.m, s.cfgs, u, s.calls[u]);
      hide WritersPastGuard;
      OtherCfgs(s.m, s.cfgs, cfgs, t, u, s.calls[u]);
    }
    hide Remembered, WritersPastGuard;
  }

  lemma OtherCfgs(m: Shared, cfgs: map<nat, Config>, cfgs': map<nat, Config>, t: nat, u: nat, c: Call)
    requires Remembered(m, cfgs, u, c) && u != t
    requires forall v | v in cfgs && v != t :: v in cfgs' && cfgs'[v] == cfgs[v]
    ensures Remembered(m, cfgs', u, c)
  {
  }

  lemma ActRemembers(s: State, a: Action)
    requires Inv(s) && AllRemembered(s)
    ensures AllRemembered(Act(s, a))
  {
    hide Inv, Step, AllRemembered;
    match a
    case CallInit(t, cfg) => if t !in s.calls { NewRemembered(s, t, Entering(cfg), s.cfgs[t := cfg]); }
    case CallShutdown(t, g) => if t !in s.calls && g in s.m.sessions { NewRemembered(s, t, Shutting(g), s.cfgs); }
    case Tick(t) =>
      if t in s.calls { AllRememberedStep(s, t); } else { assert Step(s, t) == s by { TickNobody(s, t); } }
    case Publish(name) => assert AllRemembered(Act(s, a)) by { PublishRemembers(s, name); }
  }

  lemma PublishRemembers(s: State, name: nat)
    requires AllRemembered(s)
    ensures AllRemembered(Act(s, Publish(name)))
  {
    forall u | u in s.calls ensures Remembered(Act(s, Publish(name)).m, s.cfgs, u, s.calls[u]) {
      assert Remembered(s.m, s.cfgs, u, s.calls[u]);
    }
  }

  lemma TickNobody(s: State, t: nat)
    requires t !in s.calls
    ensures Step(s, t) == s
  {
  }

  lemma {:induction false} RunRemembers(schedule: seq<Action>)
    ensures AllRemembered(Run(schedule))
  {
    if schedule != [] {
      RunRemembers(schedule[..|schedule| - 1]);
      RunKeeps(schedule[..|schedule| - 1]);
      hide AllRemembered, Act, Inv;
      ActRemembers(Run(schedule[..|schedule| - 1]), schedule[|schedule| - 1]);
    }
  }

  /** A failed Init has reset the global meter provider, and a completed shutdown has, exactly when the Init in question
      was not given one; whether the provider it overwrote was supplied makes no difference. */
  lemma RetiredResets(schedule: seq<Action>, t: nat)
    requires t in Run(schedule).calls
    ensures
      var s := Run(schedule);
      && (s.calls[t] == Ended(Failed) ==>
            t in s.cfgs && (SetMeter(t, Noop) in s.m.h.writes <==> s.cfgs[t].supplied.None?))
      && (s.calls[t].Ended? && s.calls[t].end.Stopped? ==>
            var g := s.calls[t].end.gen;
            g in s.m.h.given && (SetMeter(t, Noop) in s.m.h.writes <==> s.m.h.given[g].supplied.None?))
  {
    RunRemembers(schedule);
    var s := Run(schedule);
    hide Run;
    assert Remembered(s.m, s.cfgs, t, s.calls[t]);
  }

  /** What the noop was put over: the provider Init number gen had created, if it had created one by then, else the
      one it found when it passed the guard, or, instead of either, one that another component has published since. */
  predicate OverwriteIs(m: Shared, o: Overwrite) {
    && o.gen < m.next
    && (o.meter == (if o.made then Created(o.gen) else Found(m, o.gen)) || (o.meter.Supplied? && m.h.published > o.gen))
  }

  ghost predicate OverwritesAre(m: Shared) {
    forall t | t in m.h.reset :: OverwriteIs(m, m.h.reset[t])
  }

  lemma NextFound(m: Shared, t: nat, c: Call, g: nat)
    requires g < m.next
    ensures Found(Next(m, t, c).0, g) == Found(m, g)
  {
    if !c.Guarding? {
      SameFound(m, t, c);
      hide Next;
    }
  }

  lemma BuildFound(m: Shared, t: nat, g: nat, cfg: Config, b: BuildStep)
    ensures StepBuild(m, t, g, cfg, b).0.h.found == m.h.found
  {
  }

  lemma StopFound(m: Shared, t: nat, g: nat, cfg: Config, st: StopStep)
    ensures StepStop(m, t, g, cfg, st).0.h.found == m.h.found
  {
    hide Retire;
    if st.Retiring? { RetireFound(m, t, g, Owns(cfg), st.retire); }
  }

  lemma RetireFound(m: Shared, t: nat, g: nat, owns: bool, r: RetireStep)
    ensures Retire(m, t, g, owns, r).h.found == m.h.found
  {
  }

  lemma SameFound(m: Shared, t: nat, c: Call)
    requires !c.Guarding?
    ensures Next(m, t, c).0.h.found == m.h.found
  {
    hide StepBuild, StepStop, Retire;
    if c.Failing? { RetireFound(m, t, c.gen, Owns(c.cfg), c.retire); }
    if c.Building? {
      BuildFound(m, t, c.gen, c.cfg, c.build);
    } else if c.Stopping? && c.gen in m.sessions {
      StopFound(m, t, c.gen, m.sessions[c.gen].cfg, c.stop);
    }
  }

  lemma NewOverwrite(s: State, t: nat, c: Call)
    requires GlobalsOwned(s) && Known(s.m, t, c) && t in s.calls && c == s.calls[t] && ResetsNow(s.m, c)
    ensures OverwriteIs(s.m, Overwrite(c.gen, s.m.meter, Meter(c.gen) in s.m.h.made))
  {
    if c.Failing? {
      assert FailingIs(Seen(s.m, c.gen), c.gen, c.cfg, c.retire);
    } else {
      assert StoppingIs(Seen(s.m, c.gen), c.gen, s.m.sessions[c.gen].cfg, c.stop);
    }
  }

  lemma OverwritesStep(s: State, t: nat)
    requires Inv(s) && OverwritesAre(s.m) && t in s.calls
    ensures OverwritesAre(Step(s, t).m)
  {
    var c := s.calls[t];
    assert GlobalsOwned(s) && Known(s.m, t, c) by { KnownOf(s, t); }
    hide Inv, GlobalsOwned, Known, Next;
    if ResetsNow(s.m, c) { NewOverwrite(s, t, c); }
    NextResets(s.m, t, c);
    NextGrows(s.m, t, c);
    StepPublishes(s.m, t, c);
    hide ResetsNow;
    var m' := Step(s, t).m;
    forall u | u in m'.h.reset ensures OverwriteIs(m', m'.h.reset[u]) {
      var o := m'.h.reset[u];
      assert OverwriteIs(s.m, o);
      NextFound(s.m, t, c, o.gen);
    }
  }

  lemma OverwritesElse(s: State, a: Action)
    requires !a.Tick? && OverwritesAre(s.m) && s.m.h.published <= s.m.next
    ensures OverwritesAre(Act(s, a).m) && Act(s, a).m.h.published <= Act(s, a).m.next
  {
    forall u | u in s.m.h.reset ensures OverwriteIs(Act(s, a).m, s.m.h.reset[u]) {
      assert OverwriteIs(s.m, s.m.h.reset[u]);
    }
  }

  lemma {:induction false} RunOverwrites(schedule: seq<Action>)
    ensures OverwritesAre(Run(schedule).m) && Run(schedule).m.h.published <= Run(schedule).m.next
  {
    if schedule != [] {
      var before, a := schedule[..|schedule| - 1], schedule[|schedule| - 1];
      var s := Run(before);
      RunOverwrites(before);
      RunKeeps(before);
      hide Next, Inv, OverwritesAre;
      if !a.Tick? {
        OverwritesElse(s, a);
      } else if a.call in s.calls {
        OverwritesStep(s, a.call);
        StepPublishes(s.m, a.call, s.calls[a.call]);
        NextGrows(s.m, a.call, s.calls[a.call]);
      }
    }
  }

  /** Which providers are lost to resets. A call has reset the meter provider exactly if it is known over which it put
      the noop; and that one was supplied by another component exactly when the Init had found one of these and had
      not come to create its own, unless one was published since that Init passed the guard. */
  lemma OverwrittenExactly(schedule: seq<Action>, t: nat)
    ensures
      var s := Run(schedule);
      && (SetMeter(t, Noop) in s.m.h.writes <==> t in s.m.h.reset)
      && (t in s.m.h.reset ==>
            var o := s.m.h.reset[t];
            if PublishedSince(schedule, o.gen) then
              o.meter.Supplied? || o.meter == if o.made then Created(o.gen) else Found(s.m, o.gen)
            else o.meter.Supplied? <==> !o.made && Found(s.m, o.gen).Supplied?)
  {
    RunOverwrites(schedule);
    RunRemembers(schedule);
    var s := Run(schedule);
    assert WritersPastGuard(s) by { RunKeeps(schedule); }
    if t in s.calls { assert Remembered(s.m, s.cfgs, t, s.calls[t]); }
    if t in s.m.h.reset {
      assert OverwriteIs(s.m, s.m.h.reset[t]);
      if s.m.h.published > s.m.h.reset[t].gen { PublishedWhen(schedule, s.m.h.reset[t].gen); }
    }
  }

  /** Over a whole run: a noop was written over the global meter provider if and only if some call has retired, by
      failing or by running a closure, whose Init was given no MeterProvider. */
  lemma ResetExactly(schedule: seq<Action>)
    ensures
      var s := Run(schedule);
      && (forall t | t in s.calls :: Knows(s.m, s.cfgs, t, s.calls[t]))
      && ((exists t :: SetMeter(t, Noop) in s.m.h.writes) <==>
            exists t :: t in s.calls && HasReset(s.m, s.cfgs, t, s.calls[t]))
  {
    RunRemembers(schedule);
    RunKeeps(schedule);
    var s := Run(schedule);
    hide Run;
    assert WritersPastGuard(s);
    hide Inv, Knows, HasReset;
    forall t | t in s.calls ensures Remembered(s.m, s.cfgs, t, s.calls[t]) {
    }
    if w :| w in s.m.h.writes && w == SetMeter(w.call, Noop) {
      assert Remembered(s.m, s.cfgs, w.call, s.calls[w.call]);
    }
  }

  predicate Given(c: Call) {
    c.Entering? || c.Waiting? || c.Guarding? || c.Building? || c.Failing? ==> !Owns(c.cfg)
  }

  predicate NotInits(p: Provider) { p.Default? || p.Supplied? }

  /** No Init was called without a MeterProvider, and the global one is otel's own or a supplied one. */
  ghost predicate NoneOwned(s: State) {
    && (forall t | t in s.calls :: Given(s.calls[t]))
    && (forall g | g in s.m.sessions :: !Owns(s.m.sessions[g].cfg))
    && NotInits(s.m.meter)
  }

  lemma GivenStep(m: Shared, t: nat, c: Call)
    requires Given(c) && NotInits(m.meter) && !(c.Building? && c.build.InstallMeter?)
    requires About(c, m) in m.sessions ==> !Owns(m.sessions[About(c, m)].cfg)
    ensures
      var (m', c') := Next(m, t, c);
      var g := About(c, m);
      && Given(c') && NotInits(m'.meter)
      && (|| m'.sessions == m.sessions
          || (g in m'.sessions && m'.sessions == m.sessions[g := m'.sessions[g]] && !Owns(m'.sessions[g].cfg)))
  {
  }

  lemma NoneOwnedStep(s: State, t: nat)
    requires NoneOwned(s) && Inv(s) && t in s.calls
    ensures NoneOwned(Step(s, t))
  {
    var c := s.calls[t];
    assert !(c.Building? && c.build.InstallMeter?) by {
      KnownOf(s, t);
      if c.Building? { assert BuildingIs(Seen(s.m, c.gen), c.gen, c.cfg, c.build); }
    }
    hide Inv, Next, About, Given, NotInits;
    GivenStep(s.m, t, c);
  }

  /** When every Init is given a MeterProvider, the global one is never reset: it is always a supplied one, or otel's
      own. */
  lemma {:induction false} SuppliedNeverReset(schedule: seq<Action>)
    requires forall a | a in schedule && a.CallInit? :: a.cfg.supplied.Some?
    ensures NoneOwned(Run(schedule)) && (Run(schedule).m.meter.Default? || Run(schedule).m.meter.Supplied?)
  {
    if schedule != [] {
      var before, a := schedule[..|schedule| - 1], schedule[|schedule| - 1];
      assert a in schedule;
      SuppliedNeverReset(before);
      RunKeeps(before);
      hide Step, Inv;
      if a.Tick? {
        if a.call in Run(before).calls { NoneOwnedStep(Run(before), a.call); }
        else { assert Run(schedule) == Run(before) by { TickNobody(Run(before), a.call); } }
      }
    }
  }
}
