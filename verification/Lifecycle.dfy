/** Init and the shutdown closures it returns, as threads that interleave step by step over the process-wide
    providers, the mutex and the initialized flag. */
module Lifecycle {
  import opened Wrappers

  /** What a global provider can be: otel's own default, a noop, one that Init number gen created, or one
      that another component owns. */
  datatype Provider = Default | Noop | Created(gen: nat) | Supplied(name: nat)

  /** One Init's arguments, and which of the things it tries will work: its argument checks, the resource,
      the span processor, the metric reader, the runtime metrics. */
  datatype Config = Config(supplied: Option<nat>, valid: bool, resource: bool, span: bool, reader: bool, runtime: bool)

  predicate Owns(cfg: Config) { cfg.supplied.None? }

  datatype BuildStep =
    NameService | BuildResource | BuildSpan | InstallTracer | InstallSupplied | BuildReader | InstallMeter |
    StartRuntime | AbandonMeter | AbandonTracer | Commit

  datatype RetireStep = RetireTracer | RetireMeter | RetireService | Retired

  datatype StopStep = StopTracer | StopMeter | Retiring(retire: RetireStep) | Clear | Unlock | LeaveOnce

  /** How a call ends; Again is a shutdown that finds its closure already run. */
  datatype End = Invalid | Refused | Failed | Initialized(gen: nat) | Stopped(gen: nat) | Again(gen: nat)

  /** Where a call is. A call of Init is number gen once it is past the guard. */
  datatype Call =
    | Entering(cfg: Config)                    // argument checks
    | Waiting(cfg: Config)                     // for initMu
    | Guarding(cfg: Config)                    // holds initMu, about to look at initialized
    | Building(gen: nat, cfg: Config, build: BuildStep)
    | Failing(gen: nat, cfg: Config, retire: RetireStep)
    | Unlocking(end: End)
    | Shutting(gen: nat)                       // about to enter the closure's once
    | Stopping(gen: nat, stop: StopStep)
    | Ended(end: End)

  /** The sync.Once of a shutdown closure, and how far its one execution is, and by which call. */
  datatype Once = Fresh | Running(call: nat) | Cleared(call: nat) | Done(call: nat)

  datatype Session = Session(cfg: Config, once: Once)

  datatype Provision = Tracer(gen: nat) | Meter(gen: nat)

  datatype Write =
    SetTracer(call: nat, p: Provider) | SetMeter(call: nat, p: Provider) | SetService(call: nat, named: bool)

  /** Who may write the globals: nobody, the Init call past the guard, or the session it opened. */
  datatype Owner = Nobody | Builder(call: nat, gen: nat) | Open(gen: nat)

  /** A meter provider that a noop was put over: for which Init, and whether that one had created its own by then. */
  datatype Overwrite = Overwrite(gen: nat, meter: Provider, made: bool)

  /** For the proofs: what each Init past the guard was given, and which meter provider it found, how many there were
      when another component last published one, the providers created, the Shutdown calls on them, the writes to the
      globals, and what each call's noop was put over. */
  datatype History = History(
    given: map<nat, Config>, found: map<nat, Provider>, published: nat, made: set<Provision>, shut: multiset<Provision>,
    writes: seq<Write>, reset: map<nat, Overwrite>)

  /** What the calls share: the mutex and the flag, the globals, the sessions opened so far, how many Inits have passed
      the guard, and, for the proofs, who owns the globals and what has happened. */
  datatype Shared = Shared(
    mutex: Option<nat>, initialized: bool,
    tracer: Provider, meter: Provider, service: Option<nat>,
    sessions: map<nat, Session>, next: nat, owner: Owner, h: History)

  /** cfgs: what each Init was called with. */
  datatype State = State(m: Shared, calls: map<nat, Call>, cfgs: map<nat, Config>)

  const NOTHING := History(map[], map[], 0, {}, multiset{}, [], map[])

  const START := State(Shared(None, false, Default, Default, None, map[], 0, Nobody, NOTHING), map[], map[])

  // ----- the steps -----

  function PutTracer(m: Shared, t: nat, p: Provider): Shared {
    m.(tracer := p, h := m.h.(writes := m.h.writes + [SetTracer(t, p)]))
  }

  function PutMeter(m: Shared, t: nat, p: Provider): Shared {
    m.(meter := p, h := m.h.(writes := m.h.writes + [SetMeter(t, p)]))
  }

  function PutService(m: Shared, t: nat, name: Option<nat>): Shared {
    m.(service := name, h := m.h.(writes := m.h.writes + [SetService(t, name.Some?)]))
  }

  function Make(m: Shared, p: Provision): Shared {
    m.(h := m.h.(made := m.h.made + {p}))
  }

  function ShutDown(m: Shared, p: Provision): Shared {
    m.(h := m.h.(shut := m.h.shut + multiset{p}))
  }

  function StepBuild(m: Shared, t: nat, g: nat, cfg: Config, b: BuildStep): (Shared, Call) {
    match b
    case NameService => (PutService(m, t, Some(g)), Building(g, cfg, BuildResource))
    case BuildResource => (m, if cfg.resource then Building(g, cfg, BuildSpan) else Failing(g, cfg, RetireTracer))
    case BuildSpan =>
      if cfg.span then (Make(m, Tracer(g)), Building(g, cfg, InstallTracer)) else (m, Failing(g, cfg, RetireTracer))
    case InstallTracer =>
      (PutTracer(m, t, Created(g)), Building(g, cfg, if Owns(cfg) then BuildReader else InstallSupplied))
    case InstallSupplied =>
      (if cfg.supplied.Some? then PutMeter(m, t, Supplied(cfg.supplied.value)) else m, Building(g, cfg, Commit))
    case BuildReader =>
      if cfg.reader then (Make(m, Meter(g)), Building(g, cfg, InstallMeter)) else (m, Building(g, cfg, AbandonTracer))
    case InstallMeter => (PutMeter(m, t, Created(g)), Building(g, cfg, StartRuntime))
    case StartRuntime => (m, Building(g, cfg, if cfg.runtime then Commit else AbandonMeter))
    case AbandonMeter => (ShutDown(m, Meter(g)), Building(g, cfg, AbandonTracer))
    case AbandonTracer => (ShutDown(m, Tracer(g)), Failing(g, cfg, RetireTracer))
    case Commit =>
      (m.(initialized := true, sessions := m.sessions[g := Session(cfg, Fresh)], owner := Open(g)),
       Unlocking(Initialized(g)))
  }

  function ResetMeter(m: Shared, t: nat, g: nat): Shared {
    m.(meter := Noop, h := m.h.(writes := m.h.writes + [SetMeter(t, Noop)],
                                reset := m.h.reset[t := Overwrite(g, m.meter, Meter(g) in m.h.made)]))
  }

  /** One write of retire. */
  function Retire(m: Shared, t: nat, g: nat, owns: bool, r: RetireStep): Shared {
    match r
    case RetireTracer => PutTracer(m, t, Noop)
    case RetireMeter => if owns then ResetMeter(m, t, g) else m
    case RetireService => PutService(m, t, None)
    case Retired => m
  }

  function NextRetire(r: RetireStep): RetireStep {
    match r
    case RetireTracer => RetireMeter
    case RetireMeter => RetireService
    case RetireService => Retired
    case Retired => Retired
  }

  function StepStop(m: Shared, t: nat, g: nat, cfg: Config, st: StopStep): (Shared, Call) {
    match st
    case StopTracer => (ShutDown(m, Tracer(g)), Stopping(g, StopMeter))
    case StopMeter => (if Owns(cfg) then ShutDown(m, Meter(g)) else m, Stopping(g, Retiring(RetireTracer)))
    case Retiring(Retired) =>
      if m.mutex.None? then (m.(mutex := Some(t)), Stopping(g, Clear)) else (m, Stopping(g, st))
    case Retiring(r) => (Retire(m, t, g, Owns(cfg), r), Stopping(g, Retiring(NextRetire(r))))
    case Clear =>
      (m.(initialized := false, owner := Nobody, sessions := m.sessions[g := Session(cfg, Cleared(t))]),
       Stopping(g, Unlock))
    case Unlock => (m.(mutex := None), Stopping(g, LeaveOnce))
    case LeaveOnce => (m.(sessions := m.sessions[g := Session(cfg, Done(t))]), Ended(Stopped(g)))
  }

  /** One step of call t, which is at c; a call that cannot go on stays where it is. */
  function Next(m: Shared, t: nat, c: Call): (Shared, Call) {
    match c
    case Entering(cfg) => (m, if cfg.valid then Waiting(cfg) else Ended(Invalid))
    case Waiting(cfg) => if m.mutex.None? then (m.(mutex := Some(t)), Guarding(cfg)) else (m, c)
    case Guarding(cfg) =>
      if m.initialized then (m, Unlocking(Refused))
      else (m.(next := m.next + 1, owner := Builder(t, m.next),
               h := m.h.(given := m.h.given[m.next := cfg], found := m.h.found[m.next := m.meter])),
            Building(m.next, cfg, NameService))
    case Building(g, cfg, b) => StepBuild(m, t, g, cfg, b)
    case Failing(g, cfg, Retired) => (m.(owner := Nobody), Unlocking(Failed))
    case Failing(g, cfg, r) => (Retire(m, t, g, Owns(cfg), r), Failing(g, cfg, NextRetire(r)))
    case Unlocking(e) => (m.(mutex := None), Ended(e))
    case Shutting(g) =>
      if g !in m.sessions then (m, c)
      else (match m.sessions[g].once
        case Fresh => (m.(sessions := m.sessions[g := m.sessions[g].(once := Running(t))]), Stopping(g, StopTracer))
        case Done(_) => (m, Ended(Again(g)))
        case _ => (m, c))
    case Stopping(g, st) => if g in m.sessions then StepStop(m, t, g, m.sessions[g].cfg, st) else (m, c)
    case Ended(_) => (m, c)
  }

  function Step(s: State, t: nat): State {
    if t !in s.calls then s
    else
      var (m, c) := Next(s.m, t, s.calls[t]);
      State(m, s.calls[t := c], s.cfgs)
  }

  /** What the scheduler and the program do next. */
  datatype Action =
    | CallInit(call: nat, cfg: Config)
    | CallShutdown(call: nat, gen: nat)
    | Tick(call: nat)
    | Publish(name: nat)              // another component installs its own meter provider

  /** A new call has a new number; only a closure that Init returned can be called. */
  function Act(s: State, a: Action): State {
    match a
    case CallInit(t, cfg) =>
      if t in s.calls then s else s.(calls := s.calls[t := Entering(cfg)], cfgs := s.cfgs[t := cfg])
    case CallShutdown(t, g) => if t in s.calls || g !in s.m.sessions then s else s.(calls := s.calls[t := Shutting(g)])
    case Tick(t) => Step(s, t)
    case Publish(name) => s.(m := s.m.(meter := Supplied(name), h := s.m.h.(published := s.m.next)))
  }

  /** Any number of calls, interleaved in any way. */
  function Run(schedule: seq<Action>): State {
    if schedule == [] then START else Act(Run(schedule[..|schedule| - 1]), schedule[|schedule| - 1])
  }

  // ----- the invariant -----

  /** The call holds initMu. */
  predicate Locked(c: Call) {
    c.Guarding? || c.Building? || c.Failing? || c.Unlocking? || (c.Stopping? && (c.stop.Clear? || c.stop.Unlock?))
  }

  ghost predicate Exclusive(s: State) {
    && (forall t | t in s.calls :: Locked(s.calls[t]) <==> s.m.mutex == Some(t))
    && (s.m.mutex.Some? ==> s.m.mutex.value in s.calls)
  }

  predicate Past(c: Call) { c.Building? || c.Failing? }

  ghost predicate BuilderIs(s: State) {
    && (forall t | t in s.calls && Past(s.calls[t]) :: s.m.owner == Builder(t, s.calls[t].gen))
    && (s.m.owner.Builder? ==>
          s.m.owner.call in s.calls && Past(s.calls[s.m.owner.call])
            && s.calls[s.m.owner.call].gen == s.m.owner.gen == s.m.next - 1)
  }

  predicate IsOpen(o: Once) { o.Fresh? || o.Running? }

  ghost predicate SessionsAre(s: State) {
    && (s.m.initialized <==> s.m.owner.Open?)
    && (s.m.owner.Open? ==> s.m.owner.gen in s.m.sessions && IsOpen(s.m.sessions[s.m.owner.gen].once))
    && (s.m.owner.Builder? ==> s.m.owner.gen !in s.m.sessions)
    && (forall g | g in s.m.sessions :: g < s.m.next && (IsOpen(s.m.sessions[g].once) ==> s.m.owner == Open(g)))
  }

  predicate IsBusy(o: Once) { o.Running? || o.Cleared? }

  /** A closure is run by one call, and a call runs the closure it called. */
  ghost predicate ClosuresRunOnce(s: State) {
    && (forall t | t in s.calls && s.calls[t].Stopping? ::
          var c := s.calls[t];
          c.gen in s.m.sessions &&
          s.m.sessions[c.gen].once == if c.stop.Unlock? || c.stop.LeaveOnce? then Cleared(t) else Running(t))
    && (forall t | t in s.calls && s.calls[t].Shutting? :: s.calls[t].gen in s.m.sessions)
    && (forall g | g in s.m.sessions && IsBusy(s.m.sessions[g].once) ::
          var t := s.m.sessions[g].once.call; t in s.calls && s.calls[t].Stopping? && s.calls[t].gen == g)
  }

  /** What the global tracer is when nobody owns it and gen Inits have been past the guard. */
  function Idle(gen: nat): Provider {
    if gen == 0 then Default else Noop
  }

  /** What has become of a provider of Init's own: not created, running, shut down once, or shut down wrongly. */
  datatype Status = Unmade | Live | Shut | Wrong

  function StatusOf(m: Shared, p: Provision): Status {
    if p in m.h.made then (if m.h.shut[p] == 0 then Live else if m.h.shut[p] == 1 then Shut else Wrong)
    else if m.h.shut[p] == 0 then Unmade else Wrong
  }

  predicate BeforeInstall(b: BuildStep) {
    b.NameService? || b.BuildResource? || b.BuildSpan? || b.InstallTracer?
  }

  predicate BeforeRetire(st: StopStep) {
    st.StopTracer? || st.StopMeter? || (st.Retiring? && st.retire.RetireTracer?)
  }

  /** The globals, what has become of the providers of Init number g, which meter provider it found, and whether another
      component has published one since it passed the guard. */
  datatype View = View(
    tracer: Provider, meter: Provider, service: Option<nat>, tp: Status, mp: Status, found: Provider, replaced: bool)

  function Found(m: Shared, g: nat): Provider {
    if g in m.h.found then m.h.found[g] else Default
  }

  function Seen(m: Shared, g: nat): View {
    View(m.tracer, m.meter, m.service, StatusOf(m, Tracer(g)), StatusOf(m, Meter(g)), Found(m, g), m.h.published > g)
  }

  predicate Over(a: Status) { a.Unmade? || a.Shut? }

  /** The meter provider that Init number g makes global. */
  function Installed(g: nat, cfg: Config): Provider {
    if cfg.supplied.Some? then Supplied(cfg.supplied.value) else Created(g)
  }

  predicate MeterIs(v: View, g: nat, cfg: Config) {
    v.meter == Installed(g, cfg) || (v.replaced && v.meter.Supplied?)
  }

  predicate MeterWas(v: View) {
    v.meter == v.found || (v.replaced && v.meter.Supplied?)
  }

  /** The view of Init number g while it builds. */
  predicate BuildingIs(v: View, g: nat, cfg: Config, b: BuildStep) {
    && v.tracer == (if BeforeInstall(b) then Idle(g) else Created(g))
    && v.service == (if b.NameService? then None else Some(g))
    && (v.meter.Created? ==>
          v.meter.gen == g && Owns(cfg) && (b.StartRuntime? || b.AbandonMeter? || b.AbandonTracer? || b.Commit?))
    && !v.found.Created?
    && (if b.StartRuntime? || b.AbandonMeter? || b.Commit? || (b.AbandonTracer? && v.mp.Shut?) then MeterIs(v, g, cfg)
        else MeterWas(v))
    && v.tp == (if b.NameService? || b.BuildResource? || b.BuildSpan? then Unmade else Live)
    && (match b
        case InstallMeter => v.mp.Live? && Owns(cfg)
        case StartRuntime => v.mp.Live? && Owns(cfg)
        case AbandonMeter => v.mp.Live? && Owns(cfg)
        case AbandonTracer => Over(v.mp) && Owns(cfg)
        case BuildReader => v.mp.Unmade? && Owns(cfg)
        case InstallSupplied => v.mp.Unmade? && !Owns(cfg)
        case Commit => v.mp == if Owns(cfg) then Live else Unmade
        case _ => v.mp.Unmade?)
  }

  /** ... while its failure is put back: its providers are shut down already. */
  predicate FailingIs(v: View, g: nat, cfg: Config, r: RetireStep) {
    && (v.tracer == Noop || (r.RetireTracer? && (v.tracer == Created(g) || v.tracer == Idle(g))))
    && v.service == (if r.Retired? then None else Some(g))
    && (v.meter.Created? ==> v.meter.gen == g && Owns(cfg) && (r.RetireTracer? || r.RetireMeter?))
    && (r.RetireTracer? || r.RetireMeter? ==> if v.mp.Shut? then MeterIs(v, g, cfg) else MeterWas(v))
    && Over(v.tp) && Over(v.mp)
  }

  /** ... while its session is open and no shutdown is under way. */
  predicate OpenIs(v: View, g: nat, cfg: Config) {
    && v.tracer == Created(g) && v.service == Some(g)
    && MeterIs(v, g, cfg)
    && v.tp == Live && v.mp == if Owns(cfg) then Live else Unmade
  }

  /** ... while its closure runs, up to the point where initialized is cleared. */
  predicate StoppingIs(v: View, g: nat, cfg: Config, st: StopStep) {
    && v.tracer == (if BeforeRetire(st) then Created(g) else Noop)
    && v.service == (if st.Clear? || (st.Retiring? && st.retire.Retired?) then None else Some(g))
    && (if BeforeRetire(st) || (st.Retiring? && st.retire.RetireMeter?) then MeterIs(v, g, cfg) else !v.meter.Created?)
    && v.tp == (if st.StopTracer? then Live else Shut)
    && v.mp == (if !Owns(cfg) then Unmade else if st.StopTracer? || st.StopMeter? then Live else Shut)
  }

  /** The globals are their owner's; when nobody owns them they are noops again. */
  ghost predicate GlobalsOwned(s: State) {
    match s.m.owner
    case Nobody => s.m.tracer == Idle(s.m.next) && s.m.service == None && !s.m.meter.Created?
    case Builder(t, g) =>
      t in s.calls &&
      (match s.calls[t]
       case Building(_, cfg, b) => BuildingIs(Seen(s.m, g), g, cfg, b)
       case Failing(_, cfg, r) => FailingIs(Seen(s.m, g), g, cfg, r)
       case _ => false)
    case Open(g) =>
      g in s.m.sessions &&
      (match s.m.sessions[g].once
       case Fresh => OpenIs(Seen(s.m, g), g, s.m.sessions[g].cfg)
       case Running(t) =>
         t in s.calls && s.calls[t].Stopping? && StoppingIs(Seen(s.m, g), g, s.m.sessions[g].cfg, s.calls[t].stop)
       case _ => false)
  }

  function OwnerGen(o: Owner): int {
    match o
    case Nobody => -1
    case Builder(_, g) => g
    case Open(g) => g
  }

  /** Only the owner's providers can be running; every other one that was created is shut down, once. */
  ghost predicate OthersGone(s: State) {
    forall p: Provision ::
      (p.gen != OwnerGen(s.m.owner) ==> Over(StatusOf(s.m, p))) && (p.gen >= s.m.next ==> StatusOf(s.m, p) == Unmade)
  }

  /** Init number g keeps what it was given, and so does the session it opens. */
  ghost predicate ConfigsAre(s: State) {
    && (forall g: nat :: g in s.m.h.given <==> g < s.m.next)
    && (forall t | t in s.calls && Past(s.calls[t]) ::
          s.calls[t].gen in s.m.h.given && s.m.h.given[s.calls[t].gen] == s.calls[t].cfg)
    && (forall g | g in s.m.sessions :: g in s.m.h.given && s.m.h.given[g] == s.m.sessions[g].cfg)
  }

  predicate Quiet(e: End) { e.Invalid? || e.Refused? || e.Again? }

  /** A call that has not been past the guard, and never will be, or that found its closure already run. */
  predicate Silent(c: Call) {
    c.Entering? || c.Waiting? || c.Guarding? || c.Shutting? || (c.Unlocking? && Quiet(c.end))
      || (c.Ended? && Quiet(c.end))
  }

  ghost predicate WritersPastGuard(s: State) {
    forall w | w in s.m.h.writes :: w.call in s.calls && !Silent(s.calls[w.call])
  }

  ghost predicate Inv(s: State) {
    Exclusive(s) && BuilderIs(s) && SessionsAre(s) && ClosuresRunOnce(s) && GlobalsOwned(s) && OthersGone(s)
      && ConfigsAre(s) && WritersPastGuard(s)
  }

  // ----- every step keeps the invariant -----

  /** The call that works for the owner. */
  function Worker(m: Shared): Option<nat> {
    match m.owner
    case Nobody => None
    case Builder(t, _) => Some(t)
    case Open(g) => if g in m.sessions && m.sessions[g].once.Running? then Some(m.sessions[g].once.call) else None
  }

  /** What the invariant says of a call on its own. */
  predicate Known(m: Shared, t: nat, c: Call) {
    && (Locked(c) <==> m.mutex == Some(t))
    && (Past(c) ==> m.owner == Builder(t, c.gen) && c.gen == m.next - 1)
    && (c.Guarding? && !m.initialized ==> m.owner == Nobody)
    && (c.Shutting? ==> c.gen in m.sessions)
    && (Worker(m) == Some(t) ==> Past(c) || (c.Stopping? && m.owner == Open(c.gen)))
    && (c.Stopping? ==> c.gen in m.sessions && c.gen < m.next)
    && (c.Stopping? && (c.stop.Unlock? || c.stop.LeaveOnce?) ==>
          m.sessions[c.gen].once == Cleared(t) && m.owner != Open(c.gen))
    && (c.Stopping? && !c.stop.Unlock? && !c.stop.LeaveOnce? ==>
          m.sessions[c.gen].once == Running(t) && m.owner == Open(c.gen) && m.initialized)
  }

  lemma KnownOf(s: State, t: nat)
    requires t in s.calls && Exclusive(s) && BuilderIs(s) && SessionsAre(s) && ClosuresRunOnce(s)
    ensures Known(s.m, t, s.calls[t])
  {
  }

  /** s' is s after a step of t alone. */
  predicate Moved(s: State, s': State, t: nat) {
    t in s.calls && t in s'.calls && s'.calls == s.calls[t := s'.calls[t]]
  }

  lemma LockKeeps(s: State, s': State, t: nat)
    requires Exclusive(s) && Moved(s, s', t)
    requires || (s'.m.mutex == s.m.mutex && (Locked(s'.calls[t]) == Locked(s.calls[t])))
             || (s.m.mutex == None && s'.m.mutex == Some(t) && Locked(s'.calls[t]))
             || (s.m.mutex == Some(t) && s'.m.mutex == None && !Locked(s'.calls[t]))
    ensures Exclusive(s')
  {
  }

  lemma StepExclusive(s: State, t: nat)
    requires t in s.calls && Exclusive(s) && Known(s.m, t, s.calls[t])
    ensures Exclusive(Step(s, t))
  {
    hide Exclusive;
    LockKeeps(s, Step(s, t), t);
  }

  lemma OwnerKeeps(s: State, s': State, t: nat)
    requires BuilderIs(s) && Moved(s, s', t)
    requires
      var c, c' := s.calls[t], s'.calls[t];
      || (s'.m.owner == s.m.owner && s'.m.next == s.m.next && (Past(c') <==> Past(c)) && (Past(c) ==> c'.gen == c.gen))
      || (!s.m.owner.Builder? && !Past(c) && Past(c') && c'.gen == s.m.next && s'.m.owner == Builder(t, s.m.next)
          && s'.m.next == s.m.next + 1)
      || (Past(c) && !Past(c') && !s'.m.owner.Builder?)
      || (!Past(c) && !Past(c') && !s.m.owner.Builder? && !s'.m.owner.Builder?)
    ensures BuilderIs(s')
  {
  }

  lemma StepBuilderIs(s: State, t: nat)
    requires t in s.calls && BuilderIs(s) && Known(s.m, t, s.calls[t])
    ensures BuilderIs(Step(s, t))
  {
    hide BuilderIs;
    OwnerKeeps(s, Step(s, t), t);
  }

  lemma SessionsKeep(s: State, s': State, g: nat)
    requires SessionsAre(s) && s.m.next <= s'.m.next
    requires || s'.m.sessions == s.m.sessions
             || (g in s'.m.sessions && s'.m.sessions == s.m.sessions[g := s'.m.sessions[g]])
    requires g in s'.m.sessions ==> g < s'.m.next && (IsOpen(s'.m.sessions[g].once) ==> s'.m.owner == Open(g))
    requires s'.m.owner == s.m.owner || !s.m.owner.Open? || s.m.owner == Open(g)
    requires s'.m.initialized <==> s'.m.owner.Open?
    requires s'.m.owner.Open? ==> s'.m.owner.gen in s'.m.sessions && IsOpen(s'.m.sessions[s'.m.owner.gen].once)
    requires s'.m.owner.Builder? ==> s'.m.owner.gen !in s'.m.sessions
    ensures SessionsAre(s')
  {
  }

  /** The session a call works on. */
  function About(c: Call, m: Shared): nat {
    match c
    case Building(g, _, _) => g
    case Failing(g, _, _) => g
    case Shutting(g) => g
    case Stopping(g, _) => g
    case _ => m.next
  }

  /** What SessionsAre says of session g. */
  predicate SessionKnown(m: Shared, g: nat) {
    && (m.initialized <==> m.owner.Open?)
    && (m.owner.Open? ==> m.owner.gen in m.sessions && IsOpen(m.sessions[m.owner.gen].once))
    && (m.owner.Builder? ==> m.owner.gen !in m.sessions)
    && (g in m.sessions ==> g < m.next && (IsOpen(m.sessions[g].once) ==> m.owner == Open(g)))
    && m.next !in m.sessions
  }

  lemma StopSessions(s: State, t: nat)
    requires t in s.calls && SessionsAre(s) && Known(s.m, t, s.calls[t]) && s.calls[t].Stopping?
    ensures SessionsAre(Step(s, t))
  {
    assert SessionKnown(s.m, s.calls[t].gen);
    hide SessionsAre;
    SessionsKeep(s, Step(s, t), s.calls[t].gen);
  }

  lemma BuildSessions(s: State, t: nat)
    requires t in s.calls && SessionsAre(s) && Known(s.m, t, s.calls[t]) && Past(s.calls[t])
    ensures SessionsAre(Step(s, t))
  {
    assert SessionKnown(s.m, s.calls[t].gen);
    hide SessionsAre;
    SessionsKeep(s, Step(s, t), s.calls[t].gen);
  }

  lemma StepSessionsAre(s: State, t: nat)
    requires t in s.calls && SessionsAre(s) && Known(s.m, t, s.calls[t])
    ensures SessionsAre(Step(s, t))
  {
    if s.calls[t].Stopping? {
      StopSessions(s, t);
    } else if Past(s.calls[t]) {
      BuildSessions(s, t);
    } else {
      var g := About(s.calls[t], s.m);
      assert SessionKnown(s.m, g);
      hide SessionsAre;
      SessionsKeep(s, Step(s, t), g);
    }
  }

  lemma ClosuresKeep(s: State, s': State, t: nat, g: nat)
    requires ClosuresRunOnce(s) && Moved(s, s', t)
    requires || s'.m.sessions == s.m.sessions
             || (g in s'.m.sessions && s'.m.sessions == s.m.sessions[g := s'.m.sessions[g]])
    requires s'.m.sessions != s.m.sessions && g in s.m.sessions ==>
               (var o := s.m.sessions[g].once; o == Fresh || o == Running(t) || o == Cleared(t))
    requires
      var c' := s'.calls[t];
      && (c'.Shutting? ==> c'.gen in s'.m.sessions)
      && (c'.Stopping? ==> c'.gen in s'.m.sessions)
      && (c'.Stopping? ==>
            s'.m.sessions[c'.gen].once == if c'.stop.Unlock? || c'.stop.LeaveOnce? then Cleared(t) else Running(t))
    requires
      var c, c' := s.calls[t], s'.calls[t];
      && (c.Stopping? && c.gen in s'.m.sessions && IsBusy(s'.m.sessions[c.gen].once) ==>
            c'.Stopping? && c'.gen == c.gen)
      && (s'.m.sessions != s.m.sessions && g in s'.m.sessions && IsBusy(s'.m.sessions[g].once) ==>
          s'.m.sessions[g].once.call == t && c'.Stopping? && c'.gen == g)
    ensures ClosuresRunOnce(s')
  {
  }

  lemma StopClosures(s: State, t: nat)
    requires t in s.calls && ClosuresRunOnce(s) && Known(s.m, t, s.calls[t]) && s.calls[t].Stopping?
    ensures ClosuresRunOnce(Step(s, t))
  {
    hide ClosuresRunOnce;
    ClosuresKeep(s, Step(s, t), t, s.calls[t].gen);
  }

  lemma BuildClosures(s: State, t: nat)
    requires t in s.calls && ClosuresRunOnce(s) && Known(s.m, t, s.calls[t]) && Past(s.calls[t])
    requires s.m.owner.Builder? ==> s.m.owner.gen !in s.m.sessions
    ensures ClosuresRunOnce(Step(s, t))
  {
    hide ClosuresRunOnce;
    ClosuresKeep(s, Step(s, t), t, s.calls[t].gen);
  }

  lemma StepClosures(s: State, t: nat)
    requires t in s.calls && ClosuresRunOnce(s) && Known(s.m, t, s.calls[t])
    requires SessionKnown(s.m, About(s.calls[t], s.m))
    ensures ClosuresRunOnce(Step(s, t))
  {
    hide ClosuresRunOnce;
    if s.calls[t].Stopping? {
      StopClosures(s, t);
    } else if Past(s.calls[t]) {
      BuildClosures(s, t);
    } else {
      ClosuresKeep(s, Step(s, t), t, About(s.calls[t], s.m));
    }
  }

  /** The step is none of the owner's business. */
  predicate Aside(m: Shared, m': Shared, t: nat) {
    && Worker(m) != Some(t)
    && m'.owner == m.owner && m'.next == m.next
    && m'.tracer == m.tracer && m'.meter == m.meter && m'.service == m.service
    && m'.h.made == m.h.made && m'.h.shut == m.h.shut && m'.h.published == m.h.published
    && m'.h.found == m.h.found
    && (m.owner.Open? && m.owner.gen in m.sessions ==>
          m.owner.gen in m'.sessions && m'.sessions[m.owner.gen] == m.sessions[m.owner.gen])
  }

  lemma GlobalsAside(s: State, s': State, t: nat)
    requires GlobalsOwned(s) && Moved(s, s', t) && Aside(s.m, s'.m, t)
    ensures GlobalsOwned(s')
  {
    hide BuildingIs, FailingIs, OpenIs, StoppingIs;
    assert s.m.owner.Builder? ==> Seen(s.m, s.m.owner.gen) == Seen(s'.m, s.m.owner.gen);
    assert s.m.owner.Open? ==> Seen(s.m, s.m.owner.gen) == Seen(s'.m, s.m.owner.gen);
  }

  lemma OthersKeep(s: State, s': State)
    requires OthersGone(s) && s.m.next <= s'.m.next
    requires forall p: Provision {:trigger StatusOf(s'.m, p)} ::
               p.gen != OwnerGen(s.m.owner) ==> StatusOf(s'.m, p) == StatusOf(s.m, p)
    requires OwnerGen(s.m.owner) < s.m.next
    requires
      || OwnerGen(s'.m.owner) == OwnerGen(s.m.owner)
      || (var g := OwnerGen(s.m.owner); g < 0 || (Over(StatusOf(s'.m, Tracer(g))) && Over(StatusOf(s'.m, Meter(g)))))
    ensures OthersGone(s')
  {
    forall p: Provision
      ensures p.gen != OwnerGen(s'.m.owner) ==> Over(StatusOf(s'.m, p))
      ensures p.gen >= s'.m.next ==> StatusOf(s'.m, p) == Unmade
    {
      if p.gen == OwnerGen(s.m.owner) {
        assert p == Tracer(p.gen) || p == Meter(p.gen);
      }
    }
  }

  lemma EarlyView(m: Shared, t: nat, g: nat, cfg: Config, b: BuildStep)
    requires BuildingIs(Seen(m, g), g, cfg, b) && BeforeInstall(b)
    ensures BuildsOn(StepBuild(m, t, g, cfg, b).0, g, cfg, StepBuild(m, t, g, cfg, b).1)
  {
  }

  lemma LateView(m: Shared, t: nat, g: nat, cfg: Config, b: BuildStep)
    requires BuildingIs(Seen(m, g), g, cfg, b) && !BeforeInstall(b) && !b.Commit?
    ensures BuildsOn(StepBuild(m, t, g, cfg, b).0, g, cfg, StepBuild(m, t, g, cfg, b).1)
  {
  }

  predicate BuildsOn(m: Shared, g: nat, cfg: Config, c: Call) {
    || (c.Building? && c.gen == g && c.cfg == cfg && BuildingIs(Seen(m, g), g, cfg, c.build))
    || (c.Failing? && c.gen == g && c.cfg == cfg && FailingIs(Seen(m, g), g, cfg, c.retire))
  }

  /** Every step of a build but the last keeps what the globals are, or starts to put them back. */
  lemma BuildView(m: Shared, t: nat, g: nat, cfg: Config, b: BuildStep)
    requires BuildingIs(Seen(m, g), g, cfg, b) && !b.Commit?
    ensures BuildsOn(StepBuild(m, t, g, cfg, b).0, g, cfg, StepBuild(m, t, g, cfg, b).1)
  {
    if BeforeInstall(b) {
      EarlyView(m, t, g, cfg, b);
    } else {
      LateView(m, t, g, cfg, b);
    }
    hide StepBuild, BuildsOn;
  }

  lemma FailView(m: Shared, t: nat, g: nat, cfg: Config, r: RetireStep)
    requires FailingIs(Seen(m, g), g, cfg, r) && !r.Retired?
    ensures FailingIs(Seen(Retire(m, t, g, Owns(cfg), r), g), g, cfg, NextRetire(r))
  {
  }

  lemma StopView(m: Shared, t: nat, g: nat, cfg: Config, st: StopStep)
    requires StoppingIs(Seen(m, g), g, cfg, st) && !st.Clear? && !st.Unlock? && !st.LeaveOnce?
    ensures
      var (m', c') := StepStop(m, t, g, cfg, st);
      c'.Stopping? && c'.gen == g && StoppingIs(Seen(m', g), g, cfg, c'.stop)
  {
  }

  lemma BuildKeepsOwner(m: Shared, t: nat, g: nat, cfg: Config, b: BuildStep)
    requires !b.Commit?
    ensures StepBuild(m, t, g, cfg, b).0.owner == m.owner
  {
  }

  lemma BuildGlobals(s: State, t: nat)
    requires t in s.calls && GlobalsOwned(s) && Known(s.m, t, s.calls[t]) && s.calls[t].Building?
    ensures GlobalsOwned(Step(s, t))
  {
    var c := s.calls[t];
    if c.build.Commit? {
      assert BuildingIs(Seen(s.m, c.gen), c.gen, c.cfg, c.build);
    } else {
      hide BuildingIs, FailingIs, OpenIs, StoppingIs, Seen, StatusOf, StepBuild;
      BuildView(s.m, t, c.gen, c.cfg, c.build);
      BuildKeepsOwner(s.m, t, c.gen, c.cfg, c.build);
    }
  }

  lemma FailGlobals(s: State, t: nat)
    requires t in s.calls && GlobalsOwned(s) && Known(s.m, t, s.calls[t]) && s.calls[t].Failing?
    ensures GlobalsOwned(Step(s, t))
  {
    var c := s.calls[t];
    if c.retire.Retired? {
      assert FailingIs(Seen(s.m, c.gen), c.gen, c.cfg, c.retire);
    } else {
      hide BuildingIs, FailingIs, OpenIs, StoppingIs, Seen, StatusOf;
      FailView(s.m, t, c.gen, c.cfg, c.retire);
    }
  }

  lemma StopGlobals(s: State, t: nat)
    requires t in s.calls && GlobalsOwned(s) && Known(s.m, t, s.calls[t])
    requires s.calls[t].Stopping? && Worker(s.m) == Some(t)
    ensures GlobalsOwned(Step(s, t))
  {
    var c := s.calls[t];
    var g, cfg := c.gen, s.m.sessions[c.gen].cfg;
    assert StoppingIs(Seen(s.m, g), g, cfg, c.stop);
    if !c.stop.Clear? {
      StopView(s.m, t, g, cfg, c.stop);
      hide StoppingIs, Seen;
    }
  }

  lemma StepGlobals(s: State, t: nat)
    requires t in s.calls && GlobalsOwned(s) && OthersGone(s)
    requires Known(s.m, t, s.calls[t]) && SessionKnown(s.m, About(s.calls[t], s.m))
    ensures GlobalsOwned(Step(s, t))
  {
    var c := s.calls[t];
    var s' := Step(s, t);
    if c.Building? {
      BuildGlobals(s, t);
    } else if c.Failing? {
      FailGlobals(s, t);
    } else if c.Stopping? && Worker(s.m) == Some(t) {
      StopGlobals(s, t);
    } else if c.Shutting? && s.m.sessions[c.gen].once.Fresh? {
      assert OpenIs(Seen(s.m, c.gen), c.gen, s.m.sessions[c.gen].cfg);
      assert Seen(s.m, c.gen) == Seen(s'.m, c.gen);
    } else if c.Guarding? && !s.m.initialized {
      assert StatusOf(s'.m, Tracer(s.m.next)) == StatusOf(s.m, Tracer(s.m.next)) == Unmade;
      assert StatusOf(s'.m, Meter(s.m.next)) == StatusOf(s.m, Meter(s.m.next)) == Unmade;
    } else {
      hide GlobalsOwned, OthersGone;
      GlobalsAside(s, s', t);
    }
  }

  /** A step creates or shuts down none but the owner's providers. */
  lemma StepStatus(m: Shared, t: nat, c: Call, p: Provision)
    requires Known(m, t, c) && p.gen != OwnerGen(m.owner)
    ensures StatusOf(Next(m, t, c).0, p) == StatusOf(m, p)
  {
    if c.Building? {
      BuildStatus(m, t, c.gen, c.cfg, c.build, p);
    } else if c.Stopping? {
      StopStatus(m, t, c, p);
    } else {
      hide Known;
      OtherStatus(m, t, c);
    }
  }

  lemma BuildStatus(m: Shared, t: nat, g: nat, cfg: Config, b: BuildStep, p: Provision)
    requires p.gen != g
    ensures StatusOf(StepBuild(m, t, g, cfg, b).0, p) == StatusOf(m, p)
  {
  }

  lemma StopStatus(m: Shared, t: nat, c: Call, p: Provision)
    requires c.Stopping? && Known(m, t, c) && p.gen != OwnerGen(m.owner)
    ensures StatusOf(Next(m, t, c).0, p) == StatusOf(m, p)
  {
  }

  lemma OtherStatus(m: Shared, t: nat, c: Call)
    requires !c.Building? && !c.Stopping?
    ensures Next(m, t, c).0.h.made == m.h.made && Next(m, t, c).0.h.shut == m.h.shut
  {
  }

  /** Only a failed Init and a closure give up the globals, and that step does nothing else. */
  lemma OwnerChange(m: Shared, t: nat, c: Call)
    requires Known(m, t, c) && OwnerGen(Next(m, t, c).0.owner) != OwnerGen(m.owner) >= 0
    ensures Next(m, t, c).0.h == m.h
    ensures (c.Failing? && c.retire.Retired? && m.owner == Builder(t, c.gen))
      || (c.Stopping? && c.stop.Clear? && m.owner == Open(c.gen))
  {
  }

  /** Who gives up the globals has shut down what it created. */
  lemma OwnerLeaves(s: State, t: nat)
    requires t in s.calls && GlobalsOwned(s) && Known(s.m, t, s.calls[t])
    requires OwnerGen(Step(s, t).m.owner) != OwnerGen(s.m.owner) >= 0
    ensures
      var g := OwnerGen(s.m.owner);
      Over(StatusOf(Step(s, t).m, Tracer(g))) && Over(StatusOf(Step(s, t).m, Meter(g)))
  {
    var c := s.calls[t];
    OwnerChange(s.m, t, c);
    hide Next;
    if c.Failing? {
      assert FailingIs(Seen(s.m, c.gen), c.gen, c.cfg, c.retire);
    } else {
      assert StoppingIs(Seen(s.m, c.gen), c.gen, s.m.sessions[c.gen].cfg, c.stop);
    }
  }

  lemma StepOthers(s: State, t: nat)
    requires t in s.calls && GlobalsOwned(s) && OthersGone(s) && OwnerGen(s.m.owner) < s.m.next
    requires Known(s.m, t, s.calls[t])
    ensures OthersGone(Step(s, t))
  {
    hide GlobalsOwned, OthersGone, StatusOf, Known, StepBuild, StepStop, Retire;
    forall p: Provision | p.gen != OwnerGen(s.m.owner) ensures StatusOf(Step(s, t).m, p) == StatusOf(s.m, p) {
      StepStatus(s.m, t, s.calls[t], p);
    }
    if OwnerGen(Step(s, t).m.owner) != OwnerGen(s.m.owner) >= 0 { OwnerLeaves(s, t); }
    assert s.m.next <= Step(s, t).m.next by { NextGrows(s.m, t, s.calls[t]); }
    OthersKeep(s, Step(s, t));
  }

  lemma NextGrows(m: Shared, t: nat, c: Call)
    ensures m.next <= Next(m, t, c).0.next
  {
  }

  lemma ConfigsKeep(s: State, s': State, t: nat, g: nat)
    requires ConfigsAre(s) && Moved(s, s', t)
    requires (s'.m.h.given == s.m.h.given && s'.m.next == s.m.next) ||
             (&& s'.m.next == s.m.next + 1 && s.m.next in s'.m.h.given
              && s'.m.h.given == s.m.h.given[s.m.next := s'.m.h.given[s.m.next]])
    requires
      var c' := s'.calls[t];
      Past(c') ==> c'.gen in s'.m.h.given && s'.m.h.given[c'.gen] == c'.cfg
    requires || s'.m.sessions == s.m.sessions
             || (g in s'.m.sessions && s'.m.sessions == s.m.sessions[g := s'.m.sessions[g]])
    requires g in s'.m.sessions ==> g in s'.m.h.given && s'.m.h.given[g] == s'.m.sessions[g].cfg
    ensures ConfigsAre(s')
  {
  }

  /** What ConfigsAre says of call t and of session g. */
  predicate ConfigKnown(m: Shared, c: Call, g: nat) {
    && (Past(c) ==> c.gen in m.h.given && m.h.given[c.gen] == c.cfg)
    && (g in m.sessions ==> g in m.h.given && m.h.given[g] == m.sessions[g].cfg)
  }

  lemma NextGiven(m: Shared, t: nat, c: Call)
    ensures
      var (m', c') := Next(m, t, c);
      if c.Guarding? && !m.initialized then
        && m'.next == m.next + 1 && m'.h.given == m.h.given[m.next := c.cfg]
        && Past(c') && c'.gen == m.next && c'.cfg == c.cfg
      else m'.next == m.next && m'.h.given == m.h.given && (Past(c') ==> Past(c) && c'.gen == c.gen && c'.cfg == c.cfg)
  {
  }

  lemma NextSessions(m: Shared, t: nat, c: Call)
    ensures
      var (m', c') := Next(m, t, c);
      var g := About(c, m);
      || m'.sessions == m.sessions
      || (g in m'.sessions && m'.sessions == m.sessions[g := m'.sessions[g]] &&
            ((Past(c) && m'.sessions[g].cfg == c.cfg) || (g in m.sessions && m'.sessions[g].cfg == m.sessions[g].cfg)))
  {
  }

  lemma StepConfigs(s: State, t: nat)
    requires t in s.calls && ConfigsAre(s) && SessionsAre(s)
    ensures ConfigsAre(Step(s, t))
  {
    var c, g := s.calls[t], About(s.calls[t], s.m);
    assert ConfigKnown(s.m, c, g) && s.m.next !in s.m.sessions;
    hide ConfigsAre, SessionsAre, Next;
    NextGiven(s.m, t, c);
    NextSessions(s.m, t, c);
    ConfigsKeep(s, Step(s, t), t, g);
  }

  lemma StepSpeaks(m: Shared, t: nat, c: Call)
    ensures !Silent(c) ==> !Silent(Next(m, t, c).1)
    ensures Silent(Next(m, t, c).1) ==> Next(m, t, c).0.h.writes == m.h.writes
  {
  }

  /** ws' is ws, or has one write of call t more. */
  predicate OneMore(ws: seq<Write>, ws': seq<Write>, t: nat) {
    ws' == ws || (|ws'| == |ws| + 1 && ws'[..|ws|] == ws && ws'[|ws|].call == t)
  }

  lemma BuildWrites(m: Shared, t: nat, g: nat, cfg: Config, b: BuildStep)
    ensures OneMore(m.h.writes, StepBuild(m, t, g, cfg, b).0.h.writes, t)
  {
  }

  lemma RetireWrites(m: Shared, t: nat, g: nat, owns: bool, r: RetireStep)
    ensures OneMore(m.h.writes, Retire(m, t, g, owns, r).h.writes, t)
  {
  }

  lemma StepWrites(m: Shared, t: nat, c: Call)
    ensures OneMore(m.h.writes, Next(m, t, c).0.h.writes, t)
  {
    hide StepBuild, Retire;
    match c
    case Building(g, cfg, b) => BuildWrites(m, t, g, cfg, b);
    case Failing(g, cfg, r) => RetireWrites(m, t, g, Owns(cfg), r);
    case Stopping(g, Retiring(r)) => if g in m.sessions { RetireWrites(m, t, g, Owns(m.sessions[g].cfg), r); }
    case _ =>
  }

  lemma StepWriters(s: State, t: nat)
    requires t in s.calls && WritersPastGuard(s)
    ensures WritersPastGuard(Step(s, t))
  {
    hide Silent, StepBuild, StepStop, Next;
    StepSpeaks(s.m, t, s.calls[t]);
    StepWrites(s.m, t, s.calls[t]);
    var s' := Step(s, t);
    forall w | w in s'.m.h.writes ensures w.call in s'.calls && !Silent(s'.calls[w.call]) {
      if w !in s.m.h.writes { assert w == s'.m.h.writes[|s.m.h.writes|]; }
    }
  }

  lemma StepKeeps(s: State, t: nat)
    requires Inv(s)
    ensures Inv(Step(s, t))
  {
    if t in s.calls {
      KnownOf(s, t);
      assert SessionKnown(s.m, About(s.calls[t], s.m));
      assert OwnerGen(s.m.owner) < s.m.next;
      hide Exclusive, BuilderIs, SessionsAre, ClosuresRunOnce, GlobalsOwned, OthersGone, ConfigsAre, WritersPastGuard;
      hide Known, SessionKnown, Step;
      StepExclusive(s, t);
      StepBuilderIs(s, t);
      StepSessionsAre(s, t);
      StepClosures(s, t);
      StepGlobals(s, t);
      StepOthers(s, t);
      StepConfigs(s, t);
      StepWriters(s, t);
    }
  }

  lemma CallKeeps(s: State, s': State, t: nat)
    requires Inv(s) && t !in s.calls && t in s'.calls && s'.m == s.m && s'.calls == s.calls[t := s'.calls[t]]
    requires s'.calls[t].Entering? || (s'.calls[t].Shutting? && s'.calls[t].gen in s.m.sessions)
    ensures Inv(s')
  {
    hide BuildingIs, FailingIs, OpenIs, StoppingIs, Seen, StatusOf;
    hide Exclusive, BuilderIs, SessionsAre, ClosuresRunOnce, ConfigsAre;
    CallFrames(s, s', t);
    assert GlobalsOwned(s') by { assert BuilderIs(s) && ClosuresRunOnce(s); }
  }

  lemma CallFrames(s: State, s': State, t: nat)
    requires t !in s.calls && t in s'.calls && s'.m == s.m && s'.calls == s.calls[t := s'.calls[t]]
    requires s'.calls[t].Entering? || (s'.calls[t].Shutting? && s'.calls[t].gen in s.m.sessions)
    requires Exclusive(s) && BuilderIs(s) && SessionsAre(s) && ClosuresRunOnce(s) && ConfigsAre(s)
    ensures Exclusive(s') && BuilderIs(s') && SessionsAre(s') && ClosuresRunOnce(s') && ConfigsAre(s')
  {
  }

  lemma PublishKeeps(s: State, name: nat)
    requires Inv(s)
    ensures Inv(Act(s, Publish(name)))
  {
    hide Exclusive, BuilderIs, SessionsAre, ClosuresRunOnce;
    var s' := Act(s, Publish(name));
    assert OwnerGen(s.m.owner) < s.m.next by { OwnerIsOld(s); }
    assert Exclusive(s') && BuilderIs(s') && SessionsAre(s') && ClosuresRunOnce(s') by { PublishFrames(s, name); }
    assert forall p :: StatusOf(s'.m, p) == StatusOf(s.m, p);
  }

  lemma OwnerIsOld(s: State)
    requires BuilderIs(s) && SessionsAre(s)
    ensures OwnerGen(s.m.owner) < s.m.next
  {
  }

  lemma PublishFrames(s: State, name: nat)
    requires Exclusive(s) && BuilderIs(s) && SessionsAre(s) && ClosuresRunOnce(s)
    ensures
      var s' := Act(s, Publish(name));
      Exclusive(s') && BuilderIs(s') && SessionsAre(s') && ClosuresRunOnce(s')
  {
  }

  lemma ActKeeps(s: State, a: Action)
    requires Inv(s)
    ensures Inv(Act(s, a))
  {
    hide Inv;
    match a
    case Tick(t) => StepKeeps(s, t);
    case Publish(name) => PublishKeeps(s, name);
    case CallInit(t, cfg) => if t !in s.calls { CallKeeps(s, Act(s, a), t); }
    case CallShutdown(t, g) => if t !in s.calls && g in s.m.sessions { CallKeeps(s, Act(s, a), t); }
  }

  /** Whatever is called and however the calls interleave. */
  lemma {:induction false} RunKeeps(schedule: seq<Action>)
    ensures Inv(Run(schedule))
  {
    if schedule != [] {
      RunKeeps(schedule[..|schedule| - 1]);
      ActKeeps(Run(schedule[..|schedule| - 1]), schedule[|schedule| - 1]);
    }
  }
}
