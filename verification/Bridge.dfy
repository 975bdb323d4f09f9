/** Exactly-once export: the Prometheus reader on a registry that may be shared, the bridge that reads
    controller-runtime's registry for OTLP, and the filter between them. */
module Bridge {
  /** A metric family as gathered: its name and the collector it came from. */
  datatype Family = Family(name: string, from: nat, value: nat)

  /** A collector describes the families it will yield, or none when it is unchecked, as the OTel one is. */
  datatype Collector = Collector(id: nat, describes: set<string>)

  datatype Answer = Families(families: seq<Family>) | Error

  // ----- the filter -----

  function Names(fs: seq<Family>): set<string> {
    set f | f in fs :: f.name
  }

  function Except(all: seq<Family>, skip: set<string>): seq<Family> {
    if all == [] then []
    else
      var less, f := Except(all[..|all| - 1], skip), all[|all| - 1];
      if f.name in skip then less else less + [f]
  }

  /** The families that another collector than id yielded, in the order in which they were gathered. */
  function Foreign(all: seq<Family>, id: nat): seq<Family> {
    if all == [] then []
    else
      var less, f := Foreign(all[..|all| - 1], id), all[|all| - 1];
      if f.from == id then less else less + [f]
  }

  /** exceptGatherer.Gather, given what base and own have answered. */
  method Gather(base: Answer, own: Answer) returns (r: Answer)
    ensures r.Error? <==> base.Error? || own.Error?
    ensures r.Families? ==> r.families == Except(base.families, Names(own.families))
  {
    if base.Error? { return Error; }
    if own.Error? { return Error; }
    var all, mine := base.families, own.families;
    var skip: set<string> := {};
    for i := 0 to |mine|
      invariant skip == Names(mine[..i])
    {
      assert mine[..i + 1] == mine[..i] + [mine[i]];
      skip := skip + {mine[i].name};
    }
    assert mine[..|mine|] == mine;
    var out: seq<Family> := [];
    for i := 0 to |all|
      invariant out == Except(all[..i], skip)
    {
      assert all[..i + 1][..i] == all[..i];
      if all[i].name !in skip { out := out + [all[i]]; }
    }
    assert all[..|all|] == all;
    return Families(out);
  }

  /** What the filter passes is every family with a name not skipped, as often as it was gathered, and no other. */
  lemma {:induction false} ExceptContents(all: seq<Family>, skip: set<string>, f: Family)
    ensures multiset(Except(all, skip))[f] == if f.name in skip then 0 else multiset(all)[f]
  {
    if all != [] {
      ExceptContents(all[..|all| - 1], skip, f);
      assert all == all[..|all| - 1] + [all[|all| - 1]];
    }
  }

  /** The filter keeps the order: what it passes of two stretches is what it passes of the one, then of the other. */
  lemma {:induction false} ExceptInOrder(a: seq<Family>, b: seq<Family>, skip: set<string>)
    ensures Except(a + b, skip) == Except(a, skip) + Except(b, skip)
  {
    if b == [] {
      assert a + b == a;
    } else {
      assert (a + b)[..|a + b| - 1] == a + b[..|b| - 1];
      ExceptInOrder(a, b[..|b| - 1], skip);
    }
  }

  /** The filter gives exactly the foreign families exactly when its names are those of id's families and of none
      else. */
  lemma {:induction false} ExceptIsForeign(all: seq<Family>, skip: set<string>, id: nat)
    ensures (forall f | f in all :: f.name in skip <==> f.from == id) ==> Except(all, skip) == Foreign(all, id)
    ensures Except(all, skip) == Foreign(all, id) && (forall f | f in all && f.from == id :: f.name in skip) ==>
              forall f | f in all && f.from != id :: f.name !in skip
  {
    if all != [] {
      var less, f := all[..|all| - 1], all[|all| - 1];
      ExceptIsForeign(less, skip, id);
      assert all == less + [f];
      if (forall g | g in all && g.from == id :: g.name in skip) { Shorter(less, skip, id); }
    }
  }

  /** A filter that drops all of id's families passes no more than the foreign ones, and as many only if all of them. */
  lemma {:induction false} Shorter(all: seq<Family>, skip: set<string>, id: nat)
    requires forall f | f in all && f.from == id :: f.name in skip
    ensures |Except(all, skip)| <= |Foreign(all, id)|
    ensures |Except(all, skip)| == |Foreign(all, id)| ==> Except(all, skip) == Foreign(all, id)
  {
    if all != [] {
      assert all == all[..|all| - 1] + [all[|all| - 1]];
      Shorter(all[..|all| - 1], skip, id);
    }
  }

  lemma ForeignExactly(all: seq<Family>, skip: set<string>, id: nat)
    requires forall f | f in all && f.from == id :: f.name in skip
    ensures Except(all, skip) == Foreign(all, id) <==> forall f | f in all && f.from != id :: f.name !in skip
  {
    ExceptIsForeign(all, skip, id);
  }

  // ----- registries -----

  class Registry {
    var collectors: seq<Collector>

    constructor ()
      ensures collectors == []
    {
      collectors := [];
    }

    /** Refuses a collector that describes a family described already. An unchecked one is never refused. */
    method Register(c: Collector) returns (ok: bool)
      modifies this
      ensures ok <==> forall d | d in old(collectors) :: d.describes !! c.describes
      ensures collectors == if ok then old(collectors) + [c] else old(collectors)
    {
      ok := forall d | d in collectors :: d.describes !! c.describes;
      if ok { collectors := collectors + [c]; }
    }
  }

  /** Registers on the wrapped registry and remembers what that one accepted. */
  class CapturingRegisterer {
    const wrapped: Registry
    var captured: seq<Collector>

    constructor (wrapped: Registry)
      ensures this.wrapped == wrapped && captured == []
    {
      this.wrapped, captured := wrapped, [];
    }

    method Register(c: Collector) returns (ok: bool)
      modifies wrapped, this
      ensures ok <==> forall d | d in old(wrapped.collectors) :: d.describes !! c.describes
      ensures wrapped.collectors == old(wrapped.collectors) + if ok then [c] else []
      ensures captured == old(captured) + if ok then [c] else []
    {
      ok := wrapped.Register(c);
      if ok { captured := captured + [c]; }
    }

    /** false stands for the panic. Either way the registry and the record have grown by the same collectors. */
    method MustRegister(cs: seq<Collector>) returns (ok: bool)
      modifies wrapped, this
      ensures exists n ::
                && 0 <= n <= |cs| && (ok <==> n == |cs|)
                && wrapped.collectors == old(wrapped.collectors) + cs[..n] && captured == old(captured) + cs[..n]
    {
      var i := 0;
      while i < |cs|
        invariant 0 <= i <= |cs|
        invariant wrapped.collectors == old(wrapped.collectors) + cs[..i] && captured == old(captured) + cs[..i]
      {
        var added := Register(cs[i]);
        if !added { return false; }
        assert cs[..i + 1] == cs[..i] + [cs[i]];
        i := i + 1;
      }
      return true;
    }
  }

  // ----- the publisher -----

  /** What the bridge reads: controller-runtime's registry, all of it, or all but the captured collectors' families. */
  datatype Source = All | AllBut(captured: seq<Collector>)

  /** Whether the Prometheus reader is switched off, and whether the exporter behind it fails to construct. */
  datatype Config = Config(disabled: bool, fails: bool)

  /** The process: controller-runtime's registry, and the claim on it. */
  class Process {
    const ctrl: Registry
    var claimed: bool

    constructor ()
      ensures !claimed && fresh(ctrl) && ctrl.collectors == []
    {
      ctrl := new Registry();
      claimed := false;
    }

    /** The reader that puts c on registry. At most one claims controller-runtime's registry, and one that fails gives
        the claim back. */
    method BuildPrometheusReader(registry: Registry, fails: bool, c: Collector) returns (capreg: CapturingRegisterer?)
      modifies this, registry
      ensures capreg != null <==>
              && !(registry == ctrl && old(claimed)) && !fails
              && forall d | d in old(registry.collectors) :: d.describes !! c.describes
      ensures claimed == (old(claimed) || (registry == ctrl && capreg != null))
      ensures registry.collectors == old(registry.collectors) + if capreg != null then [c] else []
      ensures capreg != null ==> fresh(capreg) && capreg.wrapped == registry && capreg.captured == [c]
    {
      var onCtrl := registry == ctrl;
      if onCtrl {
        if claimed { return null; }
        claimed := true;
      }
      capreg := new CapturingRegisterer(registry);
      var ok := false;
      if !fails { ok := capreg.Register(c); }
      if !ok {
        if onCtrl { claimed := false; }
        return null;
      }
    }

    /** buildReaders, as far as the bridge goes, with bridgeGathererFor in it. The reader is built unless it is switched
        off, refused for the claim, or fails; c comes onto its registry exactly then, and the bridge filters exactly
        when that is controller-runtime's. */
    method BuildReaders(cfg: Config, registry: Registry, c: Collector) returns (s: Source)
      modifies this, registry
      ensures
        var builds := && !cfg.disabled && !cfg.fails && !(registry == ctrl && old(claimed))
                      && forall d | d in old(registry.collectors) :: d.describes !! c.describes;
        && registry.collectors == old(registry.collectors) + (if builds then [c] else [])
        && claimed == (old(claimed) || (builds && registry == ctrl))
        && s == if builds && registry == ctrl then AllBut([c]) else All
      ensures registry != ctrl ==> ctrl.collectors == old(ctrl.collectors)
      ensures c !in old(ctrl.collectors) ==> (s == AllBut([c]) <==> c in ctrl.collectors)
    {
      var reader: Registry?, capreg: CapturingRegisterer? := null, null;
      if !cfg.disabled {
        reader := registry;
        capreg := BuildPrometheusReader(registry, cfg.fails, c);
      }
      s := if capreg == null || reader != ctrl then All else AllBut(capreg.captured);
    }
  }

  // ----- exactly once -----

  /** What the collectors yield at time t, by collector and time. */
  function Given(collectors: seq<Collector>, gives: (nat, nat) -> seq<Family>, t: nat): multiset<Family> {
    if collectors == [] then multiset{}
    else Given(collectors[..|collectors| - 1], gives, t) + multiset(gives(collectors[|collectors| - 1].id, t))
  }

  /** A registry gathers, in an order of its own, what its collectors yield, and fails on a name that comes twice. */
  ghost predicate Gathers(collectors: seq<Collector>, gives: (nat, nat) -> seq<Family>, t: nat, all: seq<Family>) {
    && multiset(all) == Given(collectors, gives, t)
    && (forall i, j | 0 <= i < j < |all| :: all[i].name != all[j].name)
  }

  ghost predicate Marked(gives: (nat, nat) -> seq<Family>) {
    forall id, t, f | f in gives(id, t) :: f.from == id
  }

  lemma {:induction false} GivenFrom(collectors: seq<Collector>, gives: (nat, nat) -> seq<Family>, t: nat, f: Family)
    requires Marked(gives)
    ensures f in Given(collectors, gives, t) <==> f in gives(f.from, t) && exists c :: c in collectors && c.id == f.from
  {
    if collectors != [] {
      var less, c := collectors[..|collectors| - 1], collectors[|collectors| - 1];
      GivenFrom(less, gives, t, f);
      assert collectors == less + [c];
    }
  }

  /** What the bridge passes on, given what the two gatherings answered. */
  function Read(s: Source, base: seq<Family>, own: seq<Family>): seq<Family> {
    if s.All? then base else Except(base, Names(own))
  }

  method ReadBridge(s: Source, base: Answer, own: Answer) returns (r: Answer)
    ensures s.All? ==> r == base
    ensures s.AllBut? ==> (r.Error? <==> base.Error? || own.Error?)
    ensures s.AllBut? && r.Families? ==> r.families == Except(base.families, Names(own.families))
    ensures r.Families? && (s.AllBut? ==> own.Families?) ==>
              base.Families? && r.families == Read(s, base.families, if own.Families? then own.families else [])
  {
    if s.All? { return base; }
    r := Gather(base, own);
  }

  /** Our families are all found when the mirror is gathered after the registry, as long as none has gone. */
  lemma OursAreSkipped(collectors: seq<Collector>, ours: Collector, gives: (nat, nat) -> seq<Family>, t: nat, u: nat,
                       base: seq<Family>, own: seq<Family>)
    requires Marked(gives) && Gathers(collectors, gives, t, base) && Gathers([ours], gives, u, own)
    requires Names(gives(ours.id, t)) <= Names(gives(ours.id, u))
    ensures forall f | f in base && f.from == ours.id :: f.name in Names(own)
  {
    forall f | f in base && f.from == ours.id ensures f.name in Names(own) {
      assert f in multiset(base);
      GivenFrom(collectors, gives, t, f);
      assert f.name in Names(gives(ours.id, t));
      var g :| g in gives(ours.id, u) && g.name == f.name;
      assert ours in [ours];
      GivenFrom([ours], gives, u, g);
      assert g in multiset(own);
    }
  }

  /** In every configuration, with the bridge that BuildReaders chose, the bridge passes on each family on
      controller-runtime's registry that this module did not write, once and in the order gathered, and none that it
      wrote, exactly when no foreign family there bears the name of one of ours that is filtered. */
  lemma ExactlyOnce(s: Source, collectors: seq<Collector>, ours: Collector, gives: (nat, nat) -> seq<Family>, t: nat,
                    u: nat,
                    base: seq<Family>, own: seq<Family>)
    requires s == All || s == AllBut([ours])
    requires s == AllBut([ours]) <==> ours in collectors
    requires forall d | d in collectors && d != ours :: d.id != ours.id
    requires Marked(gives) && Gathers(collectors, gives, t, base) && Gathers([ours], gives, u, own)
    requires Names(gives(ours.id, t)) <= Names(gives(ours.id, u))
    ensures Read(s, base, own) == Foreign(base, ours.id) <==>
              s.All? || forall f | f in base && f.from != ours.id :: f.name !in Names(own)
    ensures forall f | f in base && f.from != ours.id :: multiset(Foreign(base, ours.id))[f] == 1
  {
    forall f | f in base && f.from != ours.id ensures multiset(Foreign(base, ours.id))[f] == 1 {
      ForeignContents(base, ours.id, f);
      OnceEach(base, f);
    }
    if s.All? {
      forall f | f in base ensures f.from != ours.id {
        assert f in multiset(base);
        GivenFrom(collectors, gives, t, f);
      }
      ForeignOfForeign(base, ours.id);
    } else {
      OursAreSkipped(collectors, ours, gives, t, u, base, own);
      ForeignExactly(base, Names(own), ours.id);
    }
  }

  lemma {:induction false} ForeignContents(all: seq<Family>, id: nat, f: Family)
    ensures multiset(Foreign(all, id))[f] == if f.from == id then 0 else multiset(all)[f]
  {
    if all != [] {
      ForeignContents(all[..|all| - 1], id, f);
      assert all == all[..|all| - 1] + [all[|all| - 1]];
    }
  }

  lemma {:induction false} ForeignOfForeign(all: seq<Family>, id: nat)
    requires forall f | f in all :: f.from != id
    ensures Foreign(all, id) == all
  {
    if all != [] {
      ForeignOfForeign(all[..|all| - 1], id);
      assert all == all[..|all| - 1] + [all[|all| - 1]];
    }
  }

  lemma {:induction false} OnceEach(all: seq<Family>, f: Family)
    requires forall i, j | 0 <= i < j < |all| :: all[i].name != all[j].name
    requires f in all
    ensures multiset(all)[f] == 1
  {
    var less, last := all[..|all| - 1], all[|all| - 1];
    assert all == less + [last];
    if f in less {
      OnceEach(less, f);
    } else {
      assert f !in multiset(less);
    }
  }

  // ----- builds that race for the claim -----

  datatype Build = Trying | Holding | Reading | Failing | Failed | Refused

  datatype Race = Race(claimed: bool, builds: map<nat, Build>)

  datatype Move = Enter(t: nat) | Tick(t: nat, works: bool)

  function Step(r: Race, m: Move): Race {
    if m.Enter? then (if m.t in r.builds then r else r.(builds := r.builds[m.t := Trying]))
    else if m.t !in r.builds then r
    else match r.builds[m.t]
      case Trying => if r.claimed then r.(builds := r.builds[m.t := Refused]) else Race(true, r.builds[m.t := Holding])
      case Holding => r.(builds := r.builds[m.t := if m.works then Reading else Failing])
      case Failing => Race(false, r.builds[m.t := Failed])
      case _ => r
  }

  function RunRace(moves: seq<Move>): Race {
    if moves == [] then Race(false, map[]) else Step(RunRace(moves[..|moves| - 1]), moves[|moves| - 1])
  }

  predicate HasClaim(b: Build) { b.Holding? || b.Reading? || b.Failing? }

  ghost predicate OneClaim(r: Race) {
    && (r.claimed <==> exists t :: t in r.builds && HasClaim(r.builds[t]))
    && (forall t, u | t in r.builds && u in r.builds && HasClaim(r.builds[t]) && HasClaim(r.builds[u]) :: t == u)
  }

  lemma StepClaims(r: Race, m: Move)
    requires OneClaim(r)
    ensures OneClaim(Step(r, m))
  {
    var r' := Step(r, m);
    if m.t in r.builds {
      if HasClaim(r'.builds[m.t]) {
        assert m.t in r'.builds;
      } else if r.claimed && !HasClaim(r.builds[m.t]) {
        var u :| u in r.builds && HasClaim(r.builds[u]);
        assert r'.builds[u] == r.builds[u];
      }
    } else if r.claimed {
      var u :| u in r.builds && HasClaim(r.builds[u]);
      assert u in r'.builds && r'.builds[u] == r.builds[u];
    }
  }

  lemma RaceSnoc(moves: seq<Move>, m: Move)
    ensures RunRace(moves + [m]) == Step(RunRace(moves), m)
  {
    assert (moves + [m])[..|moves|] == moves;
  }

  /** A build is refused exactly while another one has the claim; if none has, it reads exactly if its exporter works,
      and else gives the claim back. Nobody else's build is touched. */
  lemma ClaimDecides(moves: seq<Move>, t: nat, works: bool)
    requires t in RunRace(moves).builds && RunRace(moves).builds[t].Trying?
    ensures
      var r := RunRace(moves);
      var ticks: seq<Move> := [Tick(t, works), Tick(t, works), Tick(t, works)];
      RunRace(moves + ticks) ==
        if exists u :: u in r.builds && HasClaim(r.builds[u]) then r.(builds := r.builds[t := Refused])
        else if works then Race(true, r.builds[t := Reading])
        else Race(false, r.builds[t := Failed])
  {
    AtMostOneReader(moves);
    var r, m := RunRace(moves), Tick(t, works);
    assert moves + [m, m, m] == moves + [m] + [m] + [m];
    RaceSnoc(moves, m);
    RaceSnoc(moves + [m], m);
    RaceSnoc(moves + [m] + [m], m);
    assert r.builds[t := Holding][t := Reading] == r.builds[t := Reading];
    assert r.builds[t := Holding][t := Failing][t := Failed] == r.builds[t := Failed];
  }

  /** Readers built for controller-runtime's registry at the same time: at most one comes to read it, and the claim is
      free again when every build has failed. */
  lemma {:induction false} AtMostOneReader(moves: seq<Move>)
    ensures
      var r := RunRace(moves);
      && OneClaim(r)
      && (forall t, u | t in r.builds && u in r.builds && r.builds[t].Reading? && r.builds[u].Reading? :: t == u)
      && ((forall t | t in r.builds :: r.builds[t].Failed? || r.builds[t].Refused?) ==> !r.claimed)
  {
    if moves != [] {
      AtMostOneReader(moves[..|moves| - 1]);
      StepClaims(RunRace(moves[..|moves| - 1]), moves[|moves| - 1]);
    }
  }
}
