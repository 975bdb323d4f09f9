/** Instruments that follow the global MeterProvider: the double-checked cache in front of the otelhttp handler (and,
    without the requests, in front of the endpoint instruments), and the active-request count taken through it. Any
    number of requests run step by step against each other and against swaps of the provider. */
module Following {
  import opened Wrappers

  /** A request: the attributes activeAttrs computes of it at present, and whether its path is skipped. */
  datatype Request = Request(attrs: nat, skipped: bool)

  /** A set of instruments: its number, in the order they were built, and the provider it was built from. */
  datatype Instruments = Instruments(id: nat, from: nat)

  /** What is cached: instruments and the provider they are kept for. */
  datatype Bound = Bound(mp: nat, inst: Instruments)

  /** A lookup: the provider it read, and how many swaps there had been when the call began and when it read. */
  datatype Lookup = Lookup(since: nat, at: nat, mp: nat)

  datatype Thread =
    | Starting(req: Request, since: nat)
    | Comparing(req: Request, look: Lookup)                 // the first load of current
    | Waiting(req: Request, look: Lookup)                   // for the lock
    | Holding(req: Request, look: Lookup)                   // the second load
    | Building(req: Request, look: Lookup)
    | Storing(req: Request, look: Lookup, inst: Instruments)
    | Leaving(req: Request, look: Lookup, inst: Instruments)
    | Found(req: Request, look: Lookup, inst: Instruments)  // the lookup has returned
    | Serving(req: Request, look: Lookup, inst: Instruments, counted: Option<nat>)  // counted: the attributes of its +1
    | Over(panicked: bool)

  datatype Series = Series(mp: nat, attrs: nat)

  /** past: the providers that were global before the present one. built: the provider of each set of instruments built
      so far, by its number. sums: active_requests, zero where absent. */
  datatype Shared = Shared(
    past: seq<nat>, global: nat, current: Option<Bound>, lock: Option<nat>, built: seq<nat>, sums: map<Series, int>)

  datatype State = State(m: Shared, threads: map<nat, Thread>)

  predicate Names(current: Option<Bound>, mp: nat) {
    current.Some? && current.value.mp == mp
  }

  function Sum(m: Shared, x: Series): int {
    if x in m.sums then m.sums[x] else 0
  }

  function Add(m: Shared, x: Series, n: int): Shared {
    m.(sums := m.sums[x := Sum(m, x) + n])
  }

  /** One step of request t; one that cannot go on stays where it is. */
  function Next(m: Shared, t: nat, c: Thread): (Shared, Thread) {
    match c
    case Starting(req, since) => (m, Comparing(req, Lookup(since, |m.past|, m.global)))
    case Comparing(req, l) =>
      (m, if Names(m.current, l.mp) then Found(req, l, m.current.value.inst) else Waiting(req, l))
    case Waiting(req, l) => if m.lock.None? then (m.(lock := Some(t)), Holding(req, l)) else (m, c)
    case Holding(req, l) =>
      (m, if Names(m.current, l.mp) then Leaving(req, l, m.current.value.inst) else Building(req, l))
    case Building(req, l) => (m.(built := m.built + [l.mp]), Storing(req, l, Instruments(|m.built|, l.mp)))
    case Storing(req, l, inst) => (m.(current := Some(Bound(l.mp, inst))), Leaving(req, l, inst))
    case Leaving(req, l, inst) => (m.(lock := None), Found(req, l, inst))
    case Found(req, l, inst) =>
      if req.skipped then (m, Serving(req, l, inst, None))
      else (Add(m, Series(inst.from, req.attrs), 1), Serving(req, l, inst, Some(req.attrs)))
    case Serving(_, _, _, _) => (m, c)
    case Over(_) => (m, c)
  }

  /** The handler returns or panics; either way the deferred -1 runs. */
  function Finish(m: Shared, c: Thread, panicked: bool): (Shared, Thread) {
    if !c.Serving? then (m, c)
    else (if c.counted.None? then m else Add(m, Series(c.inst.from, c.counted.value), -1), Over(panicked))
  }

  function Rewritten(c: Thread, attrs: nat): Thread
    requires c.Serving?
  {
    c.(req := c.req.(attrs := attrs))
  }

  datatype Action =
    | Arrive(t: nat, req: Request)
    | Tick(t: nat)
    | Rewrite(t: nat, attrs: nat)           // the handler changes its request, the method say
    | End(t: nat, panicked: bool)
    | Swap(mp: nat)                         // otel.SetMeterProvider

  function Act(s: State, a: Action): State {
    match a
    case Arrive(t, req) =>
      if t in s.threads then s else s.(threads := s.threads[t := Starting(req, |s.m.past|)])
    case Tick(t) =>
      if t !in s.threads then s
      else
        var (m, c) := Next(s.m, t, s.threads[t]);
        State(m, s.threads[t := c])
    case Rewrite(t, attrs) =>
      if t !in s.threads || !s.threads[t].Serving? then s
      else s.(threads := s.threads[t := Rewritten(s.threads[t], attrs)])
    case End(t, panicked) =>
      if t !in s.threads then s
      else
        var (m, c) := Finish(s.m, s.threads[t], panicked);
        State(m, s.threads[t := c])
    case Swap(mp) => s.(m := s.m.(past := s.m.past + [s.m.global], global := mp))
  }

  /** Any number of requests and swaps, interleaved in any way, from an empty cache and provider mp. */
  function Run(mp: nat, schedule: seq<Action>): State {
    if schedule == [] then State(Shared([], mp, None, None, [], map[]), map[])
    else Act(Run(mp, schedule[..|schedule| - 1]), schedule[|schedule| - 1])
  }

  // ----- the invariant -----

  predicate Locked(c: Thread) {
    c.Holding? || c.Building? || c.Storing? || c.Leaving?
  }

  ghost predicate Exclusive(s: State) {
    && (forall t | t in s.threads :: Locked(s.threads[t]) <==> s.m.lock == Some(t))
    && (s.m.lock.Some? ==> s.m.lock.value in s.threads)
  }

  /** The provider that was global after i swaps. */
  function GlobalAt(m: Shared, i: nat): nat
    requires i <= |m.past|
  {
    if i == |m.past| then m.global else m.past[i]
  }

  /** The lookup goes by a provider that was global at an instant of its call. */
  predicate During(m: Shared, l: Lookup) {
    l.since <= l.at <= |m.past| && GlobalAt(m, l.at) == l.mp
  }

  /** The instruments are those of build number id, and were built from that provider. */
  predicate Built(m: Shared, inst: Instruments, mp: nat) {
    inst.id < |m.built| && m.built[inst.id] == inst.from == mp
  }

  predicate Consistent(m: Shared) {
    m.current.Some? ==> Built(m, m.current.value.inst, m.current.value.mp)
  }

  /** What holds of a request on its own: it goes by a provider that was global while it was looking, and what it got
      was built from that provider. */
  predicate Known(m: Shared, c: Thread) {
    match c
    case Starting(_, since) => since <= |m.past|
    case Comparing(_, l) => During(m, l)
    case Waiting(_, l) => During(m, l)
    case Holding(_, l) => During(m, l)
    case Building(_, l) => During(m, l) && !Names(m.current, l.mp)
    case Storing(_, l, inst) => During(m, l) && Built(m, inst, l.mp) && !Names(m.current, l.mp)
    case Leaving(_, l, inst) => During(m, l) && Built(m, inst, l.mp)
    case Found(_, l, inst) => During(m, l) && Built(m, inst, l.mp)
    case Serving(req, l, inst, counted) => During(m, l) && Built(m, inst, l.mp) && (counted.None? <==> req.skipped)
    case Over(_) => true
  }

  ghost predicate Inv(s: State) {
    && Exclusive(s)
    && (forall t | t in s.threads :: Known(s.m, s.threads[t]))
    && Consistent(s.m)
  }

  lemma StepExclusive(s: State, t: nat)
    requires Exclusive(s)
    ensures Exclusive(Act(s, Tick(t)))
  {
    if t in s.threads { assert Locked(s.threads[t]) <==> s.m.lock == Some(t); }
  }

  lemma KnownStep(m: Shared, t: nat, c: Thread)
    requires Known(m, c) && Consistent(m)
    ensures Known(Next(m, t, c).0, Next(m, t, c).1)
    ensures
      var m' := Next(m, t, c).0;
      && m'.past == m.past && m'.global == m.global && m.built <= m'.built
      && Consistent(m') && (m'.current == m.current || c.Storing?)
  {
  }

  lemma KnownStays(m: Shared, m': Shared, c: Thread)
    requires Known(m, c) && m'.past == m.past && m'.global == m.global && m.built <= m'.built
    requires m'.current == m.current || (!c.Building? && !c.Storing?)
    ensures Known(m', c)
  {
  }

  lemma KnownSwap(m: Shared, c: Thread, mp: nat)
    requires Known(m, c)
    ensures Known(m.(past := m.past + [m.global], global := mp), c)
  {
  }

  lemma StepKeeps(s: State, t: nat)
    requires Inv(s) && t in s.threads
    ensures Inv(Act(s, Tick(t)))
  {
    var s' := Act(s, Tick(t));
    StepExclusive(s, t);
    KnownStep(s.m, t, s.threads[t]);
    assert s.threads[t].Storing? ==> s.m.lock == Some(t);
    hide Next, Known;
    forall u | u in s'.threads ensures Known(s'.m, s'.threads[u]) {
      if u != t {
        assert Known(s.m, s.threads[u]);
        KnownStays(s.m, s'.m, s.threads[u]);
      }
    }
  }

  lemma EndKeeps(s: State, t: nat, panicked: bool)
    requires Inv(s)
    ensures Inv(Act(s, End(t, panicked)))
  {
    var s' := Act(s, End(t, panicked));
    forall u | u in s'.threads ensures Known(s'.m, s'.threads[u]) {
      assert Known(s.m, s.threads[u]);
      if s'.threads[u] == s.threads[u] { KnownStays(s.m, s'.m, s.threads[u]); }
    }
  }

  lemma SwapKeeps(s: State, mp: nat)
    requires Inv(s)
    ensures Inv(Act(s, Swap(mp)))
  {
    hide Known;
    forall u | u in s.threads ensures Known(Act(s, Swap(mp)).m, s.threads[u]) { KnownSwap(s.m, s.threads[u], mp); }
  }

  lemma ActKeeps(s: State, a: Action)
    requires Inv(s)
    ensures Inv(Act(s, a))
  {
    match a
    case Tick(t) => if t in s.threads { hide Inv, Next; StepKeeps(s, t); }
    case End(t, panicked) => hide Inv; EndKeeps(s, t, panicked);
    case Swap(mp) => hide Inv; SwapKeeps(s, mp);
    case Arrive(_, _) =>
    case Rewrite(_, _) =>
  }

  lemma {:induction false} RunKeeps(mp: nat, schedule: seq<Action>)
    ensures Inv(Run(mp, schedule))
  {
    if schedule != [] {
      RunKeeps(mp, schedule[..|schedule| - 1]);
      ActKeeps(Run(mp, schedule[..|schedule| - 1]), schedule[|schedule| - 1]);
    }
  }

  // ----- what the schedule says -----

  /** The request that arrived under number t. */
  function Arrived(schedule: seq<Action>, t: nat): Option<Request> {
    if schedule == [] then None
    else
      var before, a := Arrived(schedule[..|schedule| - 1], t), schedule[|schedule| - 1];
      if before.None? && a.Arrive? && a.t == t then Some(a.req) else before
  }

  /** The providers that have been global, in order, the present one last. */
  function Globals(mp: nat, schedule: seq<Action>): (ps: seq<nat>)
    ensures |ps| > 0
  {
    if schedule == [] then [mp]
    else
      var a := schedule[|schedule| - 1];
      Globals(mp, schedule[..|schedule| - 1]) + if a.Swap? then [a.mp] else []
  }

  function Present(mp: nat, schedule: seq<Action>): nat {
    var ps := Globals(mp, schedule); ps[|ps| - 1]
  }

  /** Request t has arrived, and has then taken a step at a moment when provider p was the global one. */
  ghost predicate SawGlobal(mp: nat, schedule: seq<Action>, t: nat, p: nat) {
    exists j :: 0 <= j < |schedule| && schedule[j] == Tick(t) && Arrived(schedule[..j], t).Some?
                && Present(mp, schedule[..j]) == p
  }

  /** What request t is about is what arrived under its number, and it goes by a provider that it saw; once counted, it
      is counted under the attributes it arrived with, unless it is skipped. */
  ghost predicate Origin(mp: nat, schedule: seq<Action>, t: nat, c: Thread) {
    match Arrived(schedule, t)
    case None => false
    case Some(req) =>
      match c
      case Starting(now, _) => now == req
      case Serving(now, l, _, counted) =>
        && SawGlobal(mp, schedule, t, l.mp)
        && now.skipped == req.skipped && counted == if req.skipped then None else Some(req.attrs)
      case Over(_) => true
      case _ => c.req == req && SawGlobal(mp, schedule, t, c.look.mp)
  }

  ghost predicate Origins(mp: nat, schedule: seq<Action>) {
    var s := Run(mp, schedule);
    && s.m.past + [s.m.global] == Globals(mp, schedule)
    && (forall t :: t in s.threads <==> Arrived(schedule, t).Some?)
    && (forall t | t in s.threads :: Origin(mp, schedule, t, s.threads[t]))
  }

  lemma SawSnoc(mp: nat, schedule: seq<Action>, a: Action, t: nat, p: nat)
    requires SawGlobal(mp, schedule, t, p)
    ensures SawGlobal(mp, schedule + [a], t, p)
  {
    var j :| 0 <= j < |schedule| && schedule[j] == Tick(t) && Arrived(schedule[..j], t).Some?
             && Present(mp, schedule[..j]) == p;
    assert (schedule + [a])[j] == schedule[j] && (schedule + [a])[..j] == schedule[..j];
  }

  lemma SeesNow(mp: nat, schedule: seq<Action>, t: nat)
    requires Arrived(schedule, t).Some?
    ensures SawGlobal(mp, schedule + [Tick(t)], t, Present(mp, schedule))
  {
    var longer := schedule + [Tick(t)];
    assert longer[|schedule|] == Tick(t) && longer[..|schedule|] == schedule;
  }

  lemma ArrivedSnoc(schedule: seq<Action>, a: Action, t: nat)
    ensures Arrived(schedule + [a], t) ==
              if Arrived(schedule, t).None? && a.Arrive? && a.t == t then Some(a.req) else Arrived(schedule, t)
  {
    assert (schedule + [a])[..|schedule|] == schedule;
  }

  lemma GlobalsSnoc(mp: nat, schedule: seq<Action>, a: Action)
    ensures Globals(mp, schedule + [a]) == Globals(mp, schedule) + if a.Swap? then [a.mp] else []
  {
    assert (schedule + [a])[..|schedule|] == schedule;
  }

  /** A thread that does not move. */
  lemma OriginStays(mp: nat, schedule: seq<Action>, a: Action, t: nat, c: Thread)
    requires Origin(mp, schedule, t, c)
    ensures Origin(mp, schedule + [a], t, c)
  {
    ArrivedSnoc(schedule, a, t);
    hide Arrived, SawGlobal;
    if !c.Starting? && !c.Over? { SawSnoc(mp, schedule, a, t, c.look.mp); }
  }

  lemma OriginTick(mp: nat, schedule: seq<Action>, m: Shared, t: nat, c: Thread)
    requires Origin(mp, schedule, t, c) && m.global == Present(mp, schedule)
    ensures Origin(mp, schedule + [Tick(t)], t, Next(m, t, c).1)
  {
    ArrivedSnoc(schedule, Tick(t), t);
    SeesNow(mp, schedule, t);
    hide Arrived, SawGlobal, Present;
    if !c.Starting? && !c.Over? { SawSnoc(mp, schedule, Tick(t), t, c.look.mp); }
  }

  lemma OriginElse(mp: nat, schedule: seq<Action>, a: Action, m: Shared, t: nat, c: Thread)
    requires Origin(mp, schedule, t, c)
    ensures a.End? ==> Origin(mp, schedule + [a], t, Finish(m, c, a.panicked).1)
    ensures a.Rewrite? && c.Serving? ==> Origin(mp, schedule + [a], t, Rewritten(c, a.attrs))
  {
    ArrivedSnoc(schedule, a, t);
    OriginStays(mp, schedule, a, t, c);
    hide Arrived, SawGlobal;
  }

  lemma OriginsAct(mp: nat, schedule: seq<Action>, a: Action)
    requires Origins(mp, schedule)
    ensures Origins(mp, schedule + [a])
  {
    var s, s' := Run(mp, schedule), Run(mp, schedule + [a]);
    RunSnoc(mp, schedule, a);
    GlobalsSnoc(mp, schedule, a);
    hide Run, Origin, Globals, Next, Finish, Rewritten;
    NextGlobals(s, a);
    forall t ensures t in s'.threads <==> Arrived(schedule + [a], t).Some? { ArrivedSnoc(schedule, a, t); }
    forall t | t in s'.threads ensures Origin(mp, schedule + [a], t, s'.threads[t]) {
      if t in s.threads {
        OriginStays(mp, schedule, a, t, s.threads[t]);
        OriginElse(mp, schedule, a, s.m, t, s.threads[t]);
        if a == Tick(t) { OriginTick(mp, schedule, s.m, t, s.threads[t]); }
      } else {
        OriginNew(mp, schedule + [a], t, a.req, |s.m.past|);
      }
    }
  }

  lemma OriginNew(mp: nat, schedule: seq<Action>, t: nat, req: Request, since: nat)
    requires Arrived(schedule, t) == Some(req)
    ensures Origin(mp, schedule, t, Starting(req, since))
  {
  }

  lemma NextGlobals(s: State, a: Action)
    ensures var s' := Act(s, a);
      s'.m.past + [s'.m.global] == s.m.past + [s.m.global] + if a.Swap? then [a.mp] else []
  {
  }

  lemma {:induction false} RunOrigins(mp: nat, schedule: seq<Action>)
    ensures Origins(mp, schedule)
  {
    if schedule != [] {
      RunOrigins(mp, schedule[..|schedule| - 1]);
      OriginsAct(mp, schedule[..|schedule| - 1], schedule[|schedule| - 1]);
      assert schedule == schedule[..|schedule| - 1] + [schedule[|schedule| - 1]];
    }
  }

  lemma RunSnoc(mp: nat, schedule: seq<Action>, a: Action)
    ensures Run(mp, schedule + [a]) == Act(Run(mp, schedule), a)
  {
    assert (schedule + [a])[..|schedule|] == schedule;
  }

  // ----- the cache -----

  /** Whatever is cached was built from the provider it is kept for. What a request gets, and is served with, is what
      its lookup returned: instruments built from a provider that was global at some instant between its start and its
      return, and that the request saw after it arrived. */
  lemma LookupIsCurrent(mp: nat, schedule: seq<Action>, t: nat)
    ensures
      var s := Run(mp, schedule);
      && s.m.past + [s.m.global] == Globals(mp, schedule)
      && (s.m.current.Some? ==>
            var b := s.m.current.value;
            b.inst.id < |s.m.built| && s.m.built[b.inst.id] == b.inst.from == b.mp)
      && (t in s.threads && (s.threads[t].Found? || s.threads[t].Serving?) ==>
            var l, inst := s.threads[t].look, s.threads[t].inst;
            && l.since <= l.at <= |s.m.past| && Globals(mp, schedule)[l.at] == inst.from
            && inst.id < |s.m.built| && s.m.built[inst.id] == inst.from
            && SawGlobal(mp, schedule, t, inst.from))
  {
    RunKeeps(mp, schedule);
    RunOrigins(mp, schedule);
    var s := Run(mp, schedule);
    hide Run, SawGlobal, Globals;
    if t in s.threads && (s.threads[t].Found? || s.threads[t].Serving?) {
      assert Known(s.m, s.threads[t]) && Origin(mp, schedule, t, s.threads[t]);
      assert GlobalAt(s.m, s.threads[t].look.at) == (s.m.past + [s.m.global])[s.threads[t].look.at];
    }
  }

  // ----- how often instruments are built -----

  /** The lookup has yet to build, for an older provider than the present one, unless it finds that one cached first. */
  predicate MayBuildOlder(m: Shared, c: Thread) {
    && (c.Comparing? || c.Waiting? || c.Building? || (c.Holding? && !Names(m.current, c.look.mp)))
    && c.look.mp != m.global
  }

  ghost predicate Stale(s: State) {
    exists t :: t in s.threads && MayBuildOlder(s.m, s.threads[t])
  }

  /** Who holds the lock is about to store instruments of provider mp. */
  predicate StoresFor(s: State, mp: nat) {
    && s.m.lock.Some? && s.m.lock.value in s.threads
    && s.threads[s.m.lock.value].Storing? && s.threads[s.m.lock.value].look.mp == mp
  }

  predicate StoresOlder(s: State) {
    && s.m.lock.Some? && s.m.lock.value in s.threads
    && s.threads[s.m.lock.value].Storing? && s.threads[s.m.lock.value].look.mp != s.m.global
  }

  /** How many builds are left until the next swap: none when the present provider's instruments are cached to stay, or
      about to be. */
  function Left(s: State): nat {
    if !StoresOlder(s) && (Names(s.m.current, s.m.global) || StoresFor(s, s.m.global)) then 0 else 1
  }

  lemma TickLeft(s: State, t: nat)
    requires Inv(s) && !Stale(s) && t in s.threads
    ensures
      var s' := Act(s, Tick(t));
      !Stale(s') && |s'.m.built| + Left(s') <= |s.m.built| + Left(s)
  {
    var c, s' := s.threads[t], Act(s, Tick(t));
    assert !MayBuildOlder(s.m, c) && Known(s.m, c) && (Locked(c) <==> s.m.lock == Some(t));
    forall u | u in s'.threads ensures !MayBuildOlder(s'.m, s'.threads[u]) {
      assert !MayBuildOlder(s.m, s.threads[u]) && (Locked(s.threads[u]) <==> s.m.lock == Some(u));
    }
  }

  lemma ActLeft(s: State, a: Action)
    requires Inv(s) && !Stale(s) && !a.Swap?
    ensures
      var s' := Act(s, a);
      !Stale(s') && |s'.m.built| + Left(s') <= |s.m.built| + Left(s)
  {
    if a.Tick? {
      if a.t in s.threads { TickLeft(s, a.t); }
    } else {
      QuietLeft(s, a);
    }
  }

  lemma QuietLeft(s: State, a: Action)
    requires Exclusive(s) && !Stale(s) && !a.Swap? && !a.Tick?
    ensures
      var s' := Act(s, a);
      !Stale(s') && |s'.m.built| == |s.m.built| && Left(s') == Left(s)
  {
    var s' := Act(s, a);
    forall u | u in s'.threads ensures !MayBuildOlder(s'.m, s'.threads[u]) {
      if u in s.threads { assert !MayBuildOlder(s.m, s.threads[u]); }
    }
    if s.m.lock.Some? { assert Locked(s.threads[s.m.lock.value]); }
  }

  predicate NoSwap(schedule: seq<Action>) {
    forall a | a in schedule :: !a.Swap?
  }

  /** Once no call in flight may build for an older provider, instruments are built at most once more until the next
      swap, and not at all when those of the present provider are cached to stay. */
  lemma {:induction false} AtMostOneBuild(mp: nat, before: seq<Action>, after: seq<Action>)
    requires !Stale(Run(mp, before)) && NoSwap(after)
    ensures
      var s, s' := Run(mp, before), Run(mp, before + after);
      !Stale(s') && |s'.m.built| + Left(s') <= |s.m.built| + Left(s)
  {
    if after == [] {
      assert before + after == before;
    } else {
      var less, a := after[..|after| - 1], after[|after| - 1];
      assert !a.Swap? by { assert a in after; }
      AtMostOneBuild(mp, before, less);
      RunKeeps(mp, before + less);
      RunSnoc(mp, before + less, a);
      assert before + after == (before + less) + [a];
      hide Inv, Stale, Left, Act, Run;
      ActLeft(Run(mp, before + less), a);
    }
  }

  function One(b: bool): int { if b then 1 else 0 }

  // A stale lookup can make two builds happen without a swap.

  predicate WillBuild(m: Shared, c: Thread) {
    c.Building? || (c.Holding? && !Names(m.current, c.look.mp))
  }

  function LockRank(c: Thread): nat {
    if c.Holding? then 4 else if c.Building? then 3 else if c.Storing? then 2 else if c.Leaving? then 1 else 0
  }

  /** s' is s after one step of the call that holds the lock. */
  predicate Stepped(s: State, s': State, u: nat) {
    && u in s.threads && u in s'.threads && Locked(s.threads[u])
    && var c := s.threads[u];
       && s'.threads == s.threads[u := s'.threads[u]] && s'.m.global == s.m.global
       && LockRank(s'.threads[u]) < LockRank(c)
       && (if Locked(s'.threads[u]) then s'.m.lock == Some(u) && s'.threads[u].look == c.look
           else c.Leaving? && s'.m.lock.None?)
       && (c.Building? ==> s'.threads[u].Storing? && |s'.m.built| == |s.m.built| + 1)
       && (!c.Building? ==> |s'.m.built| == |s.m.built| && (WillBuild(s'.m, s'.threads[u]) <==> WillBuild(s.m, c)))
       && (if c.Storing? then Names(s'.m.current, c.look.mp) else s'.m.current == s.m.current)
  }

  lemma HolderSteps(s: State, u: nat)
    requires u in s.threads && Locked(s.threads[u]) && s.m.lock == Some(u)
    ensures Stepped(s, Act(s, Tick(u)), u)
  {
  }

  /** s' is s after the call that held the lock has let it go: if it was to build, it has, and the cache is at its
      provider. */
  predicate LeftBy(s: State, s': State, u: nat) {
    && u in s.threads && Locked(s.threads[u])
    && s'.m.lock.None? && s'.m.global == s.m.global && u in s'.threads && s'.threads == s.threads[u := s'.threads[u]]
    && |s'.m.built| == |s.m.built| + One(WillBuild(s.m, s.threads[u]))
    && (WillBuild(s.m, s.threads[u]) || s.threads[u].Storing? ==> Names(s'.m.current, s.threads[u].look.mp))
    && (s.threads[u].Leaving? ==> s'.m.current == s.m.current)
  }

  lemma LastStep(s: State, s': State, u: nat)
    requires Stepped(s, s', u) && s.threads[u].Leaving?
    ensures LeftBy(s, s', u)
  {
  }

  lemma StepThenRest(s: State, s1: State, s': State, u: nat)
    requires Stepped(s, s1, u) && LeftBy(s1, s', u)
    ensures LeftBy(s, s', u)
  {
  }

  /** It can go on until it lets go. */
  lemma {:induction false} LetGo(mp: nat, before: seq<Action>, u: nat) returns (after: seq<Action>)
    requires
      var s := Run(mp, before);
      u in s.threads && Locked(s.threads[u]) && s.m.lock == Some(u)
    ensures NoSwap(after) && LeftBy(Run(mp, before), Run(mp, before + after), u)
    decreases LockRank(Run(mp, before).threads[u])
  {
    hide Run, Act, LeftBy;
    var s := Run(mp, before);
    RunSnoc(mp, before, Tick(u));
    HolderSteps(s, u);
    after := [Tick(u)];
    if s.threads[u].Leaving? {
      LastStep(s, Run(mp, before + after), u);
    } else {
      var rest := LetGo(mp, before + after, u);
      assert before + after + rest == before + (after + rest);
      StepThenRest(s, Run(mp, before + after), Run(mp, before + after + rest), u);
      after := after + rest;
    }
  }

  /** The call is on its way to the lock. */
  predicate Before(c: Thread) { c.Comparing? || c.Waiting? }

  lemma WaitRuns(mp: nat, before: seq<Action>, t: nat) returns (after: seq<Action>)
    requires
      var s := Run(mp, before);
      t in s.threads && s.threads[t].Waiting? && s.m.lock.None? && !Names(s.m.current, s.threads[t].look.mp)
    ensures NoSwap(after)
    ensures
      var s, s' := Run(mp, before), Run(mp, before + after);
      && |s'.m.built| == |s.m.built| + 1 && Names(s'.m.current, s.threads[t].look.mp)
      && s'.m.lock.None? && s'.m.global == s.m.global && t in s'.threads && s'.threads == s.threads[t := s'.threads[t]]
  {
    hide Run, Act;
    RunSnoc(mp, before, Tick(t));
    MissSteps(Run(mp, before), t);
    var rest := LetGo(mp, before + [Tick(t)], t);
    after := [Tick(t)] + rest;
    assert before + [Tick(t)] + rest == before + after;
  }

  /** A lookup that misses while the lock is free builds, and leaves the cache at its own provider. */
  lemma MissRuns(mp: nat, before: seq<Action>, t: nat) returns (after: seq<Action>)
    requires
      var s := Run(mp, before);
      t in s.threads && Before(s.threads[t]) && s.m.lock.None? && !Names(s.m.current, s.threads[t].look.mp)
    ensures NoSwap(after)
    ensures
      var s, s' := Run(mp, before), Run(mp, before + after);
      && |s'.m.built| == |s.m.built| + 1 && Names(s'.m.current, s.threads[t].look.mp)
      && s'.m.lock.None? && s'.m.global == s.m.global && t in s'.threads && s'.threads == s.threads[t := s'.threads[t]]
  {
    hide Run, Act;
    if Run(mp, before).threads[t].Waiting? {
      after := WaitRuns(mp, before, t);
    } else {
      RunSnoc(mp, before, Tick(t));
      MissSteps(Run(mp, before), t);
      var rest := WaitRuns(mp, before + [Tick(t)], t);
      after := [Tick(t)] + rest;
      assert before + [Tick(t)] + rest == before + after;
    }
  }

  lemma MissSteps(s: State, t: nat)
    requires t in s.threads && Before(s.threads[t]) && s.m.lock.None? && !Names(s.m.current, s.threads[t].look.mp)
    ensures
      var s', c := Act(s, Tick(t)), s.threads[t];
      && t in s'.threads && s'.threads == s.threads[t := s'.threads[t]]
      && s'.m == s.m.(lock := if c.Comparing? then None else Some(t))
      && s'.threads[t] == if c.Comparing? then Waiting(c.req, c.look) else Holding(c.req, c.look)
  {
  }

  lemma TwoMisses(mp: nat, before: seq<Action>, t: nat, u: nat) returns (after: seq<Action>)
    requires
      var s := Run(mp, before);
      && t in s.threads && Before(s.threads[t]) && u in s.threads && Before(s.threads[u])
      && s.threads[t].look.mp != s.threads[u].look.mp && s.m.lock.None? && !Names(s.m.current, s.threads[t].look.mp)
    ensures NoSwap(after)
    ensures |Run(mp, before + after).m.built| == |Run(mp, before).m.built| + 2
  {
    hide Run, Before;
    var q := MissRuns(mp, before, t);
    var r := MissRuns(mp, before + q, u);
    after := q + r;
    assert before + q + r == before + after;
  }

  /** A new request reads the present provider. */
  lemma NewLookup(mp: nat, before: seq<Action>, c: nat, req: Request)
    requires c !in Run(mp, before).threads
    ensures
      var s := Run(mp, before);
      Run(mp, before + [Arrive(c, req), Tick(c)]) ==
        State(s.m, s.threads[c := Comparing(req, Lookup(|s.m.past|, |s.m.past|, s.m.global))])
  {
    var s := Run(mp, before);
    assert before + [Arrive(c, req), Tick(c)] == (before + [Arrive(c, req)]) + [Tick(c)];
    RunSnoc(mp, before, Arrive(c, req));
    RunSnoc(mp, before + [Arrive(c, req)], Tick(c));
    hide Run;
    NewSteps(s, c, req);
  }

  lemma NewSteps(s: State, c: nat, req: Request)
    requires c !in s.threads
    ensures Act(Act(s, Arrive(c, req)), Tick(c)) ==
              State(s.m, s.threads[c := Comparing(req, Lookup(|s.m.past|, |s.m.past|, s.m.global))])
  {
    var s1 := Act(s, Arrive(c, req));
    assert s1 == State(s.m, s.threads[c := Starting(req, |s.m.past|)]);
    assert Act(s1, Tick(c)).threads == s.threads[c := Comparing(req, Lookup(|s.m.past|, |s.m.past|, s.m.global))];
  }

  /** While the present provider's instruments are cached, a new request gets just these, without the lock, whoever
      holds it, and without a build. */
  lemma HitNeedsNoLock(mp: nat, before: seq<Action>, c: nat, req: Request)
    requires c !in Run(mp, before).threads && Names(Run(mp, before).m.current, Run(mp, before).m.global)
    ensures
      var s := Run(mp, before);
      Run(mp, before + [Arrive(c, req), Tick(c), Tick(c)]) ==
        State(s.m, s.threads[c := Found(req, Lookup(|s.m.past|, |s.m.past|, s.m.global), s.m.current.value.inst)])
  {
    var s := Run(mp, before);
    var arrived := before + [Arrive(c, req), Tick(c)];
    NewLookup(mp, before, c, req);
    assert before + [Arrive(c, req), Tick(c), Tick(c)] == arrived + [Tick(c)];
    RunSnoc(mp, arrived, Tick(c));
    hide Run;
    var look := Lookup(|s.m.past|, |s.m.past|, s.m.global);
    assert s.threads[c := Comparing(req, look)][c := Found(req, look, s.m.current.value.inst)]
           == s.threads[c := Found(req, look, s.m.current.value.inst)];
  }

  /** There is always another request to come. */
  lemma {:induction false} Above(ids: set<nat>) returns (c: nat)
    ensures forall i | i in ids :: i < c
  {
    if ids == {} {
      c := 0;
    } else {
      var i :| i in ids;
      var d := Above(ids - {i});
      c := if i < d then d else i + 1;
      forall j | j in ids ensures j < c {
        assert j == i || j in ids - {i};
      }
    }
  }

  /** The call that holds the lock, if any, lets it go; nobody else moves. */
  lemma FreeLock(mp: nat, before: seq<Action>) returns (after: seq<Action>)
    ensures NoSwap(after)
    ensures
      var s, s' := Run(mp, before), Run(mp, before + after);
      && s'.m.lock.None? && s'.m.global == s.m.global && |s'.m.built| >= |s.m.built|
      && s'.threads.Keys == s.threads.Keys
      && forall t | t in s.threads && !Locked(s.threads[t]) :: s'.threads[t] == s.threads[t]
  {
    var s := Run(mp, before);
    RunKeeps(mp, before);
    if s.m.lock.None? {
      after := [];
      assert before + [] == before;
    } else {
      assert Locked(s.threads[s.m.lock.value]);
      hide Run, Inv;
      after := LetGo(mp, before, s.m.lock.value);
    }
  }

  /** A call on its way to the lock with an older provider, and one new request, can make two builds. */
  lemma WaitingBuildsTwice(mp: nat, before: seq<Action>, t: nat) returns (after: seq<Action>)
    requires
      var s := Run(mp, before);
      t in s.threads && Before(s.threads[t]) && s.threads[t].look.mp != s.m.global
    ensures NoSwap(after) && |Run(mp, before + after).m.built| >= |Run(mp, before).m.built| + 2
  {
    hide Run;
    var free := FreeLock(mp, before);
    var s := Run(mp, before + free);
    var c := Above(s.threads.Keys);
    var arrive: seq<Action> := [Arrive(c, Request(0, false)), Tick(c)];
    NewLookup(mp, before + free, c, Request(0, false));
    var q: seq<Action>;
    if Names(s.m.current, s.threads[t].look.mp) {
      q := TwoMisses(mp, before + free + arrive, c, t);
    } else {
      q := TwoMisses(mp, before + free + arrive, t, c);
    }
    after := free + arrive + q;
    assert before + free + arrive + q == before + after;
  }

  /** So can one that holds the lock and is to build for an older provider. */
  lemma HolderBuildsTwice(mp: nat, before: seq<Action>, t: nat) returns (after: seq<Action>)
    requires
      var s := Run(mp, before);
      && t in s.threads && Locked(s.threads[t]) && s.m.lock == Some(t) && WillBuild(s.m, s.threads[t])
      && s.threads[t].look.mp != s.m.global
    ensures NoSwap(after) && |Run(mp, before + after).m.built| >= |Run(mp, before).m.built| + 2
  {
    hide Run;
    var free := LetGo(mp, before, t);
    var c := Above(Run(mp, before + free).threads.Keys);
    var arrive: seq<Action> := [Arrive(c, Request(0, false)), Tick(c)];
    NewLookup(mp, before + free, c, Request(0, false));
    var q := MissRuns(mp, before + free + arrive, c);
    after := free + arrive + q;
    assert before + free + arrive + q == before + after;
  }

  /** Whatever call it is that may build for an older provider, and whoever holds the lock, two builds can happen before
      the next swap. */
  lemma StaleBuildsTwice(mp: nat, before: seq<Action>) returns (after: seq<Action>)
    requires Stale(Run(mp, before))
    ensures NoSwap(after) && |Run(mp, before + after).m.built| >= |Run(mp, before).m.built| + 2
  {
    var s := Run(mp, before);
    RunKeeps(mp, before);
    var t :| t in s.threads && MayBuildOlder(s.m, s.threads[t]);
    assert Locked(s.threads[t]) <==> s.m.lock == Some(t);
    hide Run, Inv, Stale;
    if Before(s.threads[t]) {
      after := WaitingBuildsTwice(mp, before, t);
    } else {
      after := HolderBuildsTwice(mp, before, t);
    }
  }

  /** Until the next swap instruments are built at most once, however things go on, exactly when no call in flight may
      build for an older provider. */
  lemma BuildsExactly(mp: nat, before: seq<Action>)
    ensures !Stale(Run(mp, before)) <==>
              forall after | NoSwap(after) :: |Run(mp, before + after).m.built| <= |Run(mp, before).m.built| + 1
  {
    if Stale(Run(mp, before)) {
      var after := StaleBuildsTwice(mp, before);
    } else {
      forall after | NoSwap(after) ensures |Run(mp, before + after).m.built| <= |Run(mp, before).m.built| + 1 {
        AtMostOneBuild(mp, before, after);
      }
    }
  }

  /** It comes to that: one request has read the provider, and it is swapped for another. */
  lemma StaleReachable(mp: nat, other: nat, req: Request)
    requires mp != other
    ensures Stale(Run(mp, [Arrive(0, req), Tick(0), Swap(other)]))
  {
    var two: seq<Action> := [Arrive(0, req), Tick(0)];
    assert [] + two == two && two + [Swap(other)] == [Arrive(0, req), Tick(0), Swap(other)];
    NewLookup(mp, [], 0, req);
    RunSnoc(mp, two, Swap(other));
    var s := Run(mp, two + [Swap(other)]);
    assert 0 in s.threads && MayBuildOlder(s.m, s.threads[0]);
  }

  // ----- the count of active requests -----

  /** The request has been counted in x and not taken out yet. */
  predicate CountedIn(c: Thread, x: Series) {
    c.Serving? && c.counted.Some? && Series(c.inst.from, c.counted.value) == x
  }

  ghost function Active(threads: map<nat, Thread>, x: Series): set<nat> {
    set t | t in threads && CountedIn(threads[t], x)
  }

  ghost predicate Balanced(s: State) {
    forall x :: Sum(s.m, x) == |Active(s.threads, x)|
  }

  lemma ActiveMoves(threads: map<nat, Thread>, t: nat, c: Thread, x: Series)
    ensures |Active(threads[t := c], x)| ==
              |Active(threads, x)| + One(CountedIn(c, x)) - One(t in threads && CountedIn(threads[t], x))
  {
    var was, now := Active(threads, x), Active(threads[t := c], x);
    assert was - {t} == now - {t};
    assert |was| == |was - {t}| + One(t in was);
    assert |now| == |now - {t}| + One(t in now);
  }

  /** A step moves the sums by what it does to its own request. */
  lemma SumMoves(m: Shared, t: nat, c: Thread, panicked: bool, x: Series)
    ensures Sum(Next(m, t, c).0, x) == Sum(m, x) + One(CountedIn(Next(m, t, c).1, x)) - One(CountedIn(c, x))
    ensures
      var (m', c') := Finish(m, c, panicked);
      Sum(m', x) == Sum(m, x) + One(CountedIn(c', x)) - One(CountedIn(c, x))
  {
  }

  lemma BalancedAct(s: State, a: Action)
    requires Balanced(s)
    ensures Balanced(Act(s, a))
  {
    hide Next, Finish, CountedIn, Active;
    forall x ensures Sum(Act(s, a).m, x) == |Active(Act(s, a).threads, x)| {
      BalancedIn(s, a, x);
    }
  }

  lemma BalancedIn(s: State, a: Action, x: Series)
    requires Sum(s.m, x) == |Active(s.threads, x)|
    ensures Sum(Act(s, a).m, x) == |Active(Act(s, a).threads, x)|
  {
    hide Next, Finish, Active;
    match a
    case Tick(t) =>
      if t in s.threads {
        SumMoves(s.m, t, s.threads[t], false, x);
        ActiveMoves(s.threads, t, Next(s.m, t, s.threads[t]).1, x);
      }
    case End(t, panicked) =>
      if t in s.threads {
        SumMoves(s.m, t, s.threads[t], panicked, x);
        ActiveMoves(s.threads, t, Finish(s.m, s.threads[t], panicked).1, x);
      }
    case Arrive(t, req) => ActiveMoves(s.threads, t, Starting(req, |s.m.past|), x);
    case Rewrite(t, attrs) =>
      if t in s.threads && s.threads[t].Serving? { ActiveMoves(s.threads, t, Rewritten(s.threads[t], attrs), x); }
    case Swap(_) =>
  }

  /** The requests that arrived with these attributes, are not skipped, and are being served with instruments of that
      provider. */
  ghost function Served(mp: nat, schedule: seq<Action>, x: Series): set<nat> {
    var threads := Run(mp, schedule).threads;
    set t | && t in threads && threads[t].Serving? && threads[t].inst.from == x.mp
            && Arrived(schedule, t).Some? && !Arrived(schedule, t).value.skipped
            && Arrived(schedule, t).value.attrs == x.attrs
  }

  lemma {:induction false} RunBalanced(mp: nat, schedule: seq<Action>)
    ensures Balanced(Run(mp, schedule))
  {
    if schedule != [] {
      RunBalanced(mp, schedule[..|schedule| - 1]);
      BalancedAct(Run(mp, schedule[..|schedule| - 1]), schedule[|schedule| - 1]);
    } else {
      assert forall x :: Active(Run(mp, schedule).threads, x) == {};
    }
  }

  /** In every reachable state, each provider's active_requests for the given attributes is the number of requests that
      arrived with these, are not skipped, and are being served with its instruments, whatever their handlers have made
      of them meanwhile; and each of these saw that provider as the global one. */
  lemma ActiveRequestsBalance(mp: nat, schedule: seq<Action>, x: Series)
    ensures Sum(Run(mp, schedule).m, x) == |Served(mp, schedule, x)|
    ensures forall t | t in Served(mp, schedule, x) :: SawGlobal(mp, schedule, t, x.mp)
  {
    RunBalanced(mp, schedule);
    RunOrigins(mp, schedule);
    RunKeeps(mp, schedule);
    var s := Run(mp, schedule);
    hide Run, SawGlobal, Globals, Arrived;
    forall t | t in s.threads && s.threads[t].Serving?
      ensures CountedIn(s.threads[t], x) <==> t in Served(mp, schedule, x)
      ensures t in Served(mp, schedule, x) ==> SawGlobal(mp, schedule, t, x.mp)
    {
      assert Origin(mp, schedule, t, s.threads[t]) && Known(s.m, s.threads[t]);
    }
    assert Active(s.threads, x) == Served(mp, schedule, x);
  }

  /** ... so that when every request is over, however it ended and whatever was swapped meanwhile, every sum is zero. */
  lemma QuietMeansZero(mp: nat, schedule: seq<Action>)
    requires forall t | t in Run(mp, schedule).threads :: Run(mp, schedule).threads[t].Over?
    ensures forall x :: Sum(Run(mp, schedule).m, x) == 0
  {
    forall x ensures Sum(Run(mp, schedule).m, x) == 0 {
      ActiveRequestsBalance(mp, schedule, x);
      assert Served(mp, schedule, x) == {};
    }
  }

  // ----- no request waits for ever -----

  /** Above the steps that a request has ahead of it, its end included. */
  function Rank(c: Thread): nat {
    match c
    case Starting(_, _) => 9
    case Comparing(_, _) => 8
    case Waiting(_, _) => 7
    case Holding(_, _) => 6
    case Building(_, _) => 5
    case Storing(_, _, _) => 4
    case Leaving(_, _, _) => 3
    case Found(_, _, _) => 2
    case Serving(_, _, _, _) => 1
    case Over(_) => 0
  }

  /** What the holder of the lock, or anyone while it is free, can do next. */
  lemma Proceeds(s: State, t: nat, panicked: bool)
    requires t in s.threads && !s.threads[t].Over? && (s.threads[t].Waiting? ==> s.m.lock.None?)
    ensures
      var s' := Act(s, if s.threads[t].Serving? then End(t, panicked) else Tick(t));
      && t in s'.threads && s'.threads == s.threads[t := s'.threads[t]] && Rank(s'.threads[t]) < Rank(s.threads[t])
      && (if s.threads[t].Serving? then s'.threads[t] == Over(panicked) else !s'.threads[t].Over?)
  {
  }

  /** While a request is not over, some request can go on: it is being served, or has a step to take. */
  lemma SomeRequestMoves(mp: nat, schedule: seq<Action>, t: nat) returns (u: nat)
    requires t in Run(mp, schedule).threads && !Run(mp, schedule).threads[t].Over?
    ensures
      var s := Run(mp, schedule);
      && u in s.threads && !s.threads[u].Over? && (s.threads[u].Waiting? ==> s.m.lock.None?)
      && (s.threads[u].Serving? || Act(s, Tick(u)).threads[u] != s.threads[u])
  {
    RunKeeps(mp, schedule);
    var s := Run(mp, schedule);
    u := if s.m.lock.Some? then s.m.lock.value else t;
    assert s.m.lock.Some? ==> Locked(s.threads[u]);
    hide Run, Inv;
    Proceeds(s, u, false);
  }

  ghost function Any(threads: map<nat, Thread>): (t: nat)
    requires threads != map[]
    ensures t in threads
  {
    var t :| t in threads; t
  }

  /** The steps ahead of all requests. */
  ghost function Ahead(threads: map<nat, Thread>): nat {
    if threads == map[] then 0
    else var t := Any(threads); Rank(threads[t]) + Ahead(threads - {t})
  }

  lemma {:induction false} AheadAt(threads: map<nat, Thread>, t: nat)
    requires t in threads
    ensures Ahead(threads) == Rank(threads[t]) + Ahead(threads - {t})
    decreases |threads|
  {
    var u := Any(threads);
    if u != t {
      AheadAt(threads - {u}, t);
      AheadAt(threads - {t}, u);
      assert threads - {u} - {t} == threads - {t} - {u};
    }
  }

  /** From any reachable state, with requests wherever they are: if no more come and nothing is swapped, all get their
      instruments and can be brought to their end, by return or panic as one likes, and then no request is counted. */
  lemma {:induction false} AllRequestsEnd(mp: nat, schedule: seq<Action>, panicked: bool) returns (more: seq<Action>)
    ensures forall a | a in more :: a.Tick? || (a.End? && a.panicked == panicked)
    ensures
      var threads, threads' := Run(mp, schedule).threads, Run(mp, schedule + more).threads;
      && threads'.Keys == threads.Keys
      && forall t | t in threads :: threads'[t] == if threads[t].Over? then threads[t] else Over(panicked)
    ensures forall x :: Sum(Run(mp, schedule + more).m, x) == 0
    ensures |more| <= Ahead(Run(mp, schedule).threads)
    decreases Ahead(Run(mp, schedule).threads)
  {
    hide Run, Act, Ahead;
    var s := Run(mp, schedule);
    if t :| t in s.threads && !s.threads[t].Over? {
      var u := SomeRequestMoves(mp, schedule, t);
      var a := if s.threads[u].Serving? then End(u, panicked) else Tick(u);
      Proceeds(s, u, panicked);
      RunSnoc(mp, schedule, a);
      var s' := Act(s, a);
      AheadAt(s.threads, u);
      AheadAt(s'.threads, u);
      assert s'.threads - {u} == s.threads - {u};
      var rest := AllRequestsEnd(mp, schedule + [a], panicked);
      more := [a] + rest;
      assert schedule + more == schedule + [a] + rest;
    } else {
      more := [];
      assert schedule + more == schedule;
      QuietMeansZero(mp, schedule);
    }
  }
}
