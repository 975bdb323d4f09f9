/** The table of metric names: what a custom metric claims before its instrument is created, and gives back when the
    creation fails. */
module NameTable {
  import opened Wrappers

  datatype Kind = Counter | Gauge | Histogram

  /** The naming rules: which names are valid, and what a metric is called on /metrics, if it can be served at all. */
  datatype Rules = Rules(valid: string -> bool, serve: (string, Kind) -> Option<string>)

  datatype Claim = Claim(name: string, description: string, kind: Kind)

  datatype Verdict =
    | Granted | InvalidName | NoDescription | Unservable
    | AlreadyRegistered | Collides(owner: string) | OnRegistry

  /** The name on /metrics; release falls back on the name itself when there is none. */
  function Served(rules: Rules, c: Claim): string {
    var s := rules.serve(c.name, c.kind);
    if s.Some? then s.value else c.name
  }

  function KeysFor(name: string, served: string): seq<string> {
    if name == served then [name] else [name, served]
  }

  /** The names a claim takes. */
  function Keys(rules: Rules, c: Claim): set<string> {
    {c.name, Served(rules, c)}
  }

  /** The owner of the first of the keys that is taken. */
  function Taken(names: map<string, string>, keys: seq<string>): Option<string> {
    if keys == [] then None else if keys[0] in names then Some(names[keys[0]]) else Taken(names, keys[1..])
  }

  /** What reserve answers, given the table and the families on the registry. */
  function Judge(rules: Rules, names: map<string, string>, families: set<string>, c: Claim): Verdict {
    if !rules.valid(c.name) then InvalidName
    else if c.description == "" then NoDescription
    else if rules.serve(c.name, c.kind).None? then Unservable
    else
      var owner := Taken(names, KeysFor(c.name, Served(rules, c)));
      if owner.Some? then (if owner.value == c.name then AlreadyRegistered else Collides(owner.value))
      else if Served(rules, c) in families then OnRegistry
      else Granted
  }

  function SetOf(keys: seq<string>): set<string> {
    set k | k in keys
  }

  lemma KeysAre(rules: Rules, c: Claim)
    ensures SetOf(KeysFor(c.name, Served(rules, c))) == Keys(rules, c)
  {
  }

  predicate Proper(rules: Rules, c: Claim) {
    rules.valid(c.name) && c.description != "" && rules.serve(c.name, c.kind).Some?
  }

  /** The claim is for this name: it is the one registered, or the one on /metrics. */
  predicate Takes(rules: Rules, c: Claim, k: string) {
    c.name == k || rules.serve(c.name, c.kind) == Some(k)
  }

  lemma KeysTaken(rules: Rules, c: Claim)
    requires Proper(rules, c)
    ensures Keys(rules, c) == {c.name, rules.serve(c.name, c.kind).value}
    ensures forall k :: k in Keys(rules, c) <==> Takes(rules, c, k)
  {
  }

  function With(names: map<string, string>, keys: set<string>, owner: string): map<string, string> {
    names + map k | k in keys :: owner
  }

  // ----- the table as it is kept -----

  /** A registry of other collectors' families. */
  class Registry {
    var families: set<string>

    constructor ()
      ensures families == {}
    {
      families := {};
    }

    method Register(name: string) returns (ok: bool)
      modifies this
      ensures ok <==> name !in old(families)
      ensures families == old(families) + {name}
    {
      ok := name !in families;
      families := families + {name};
    }

    method Unregister(name: string)
      modifies this
      ensures families == old(families) - {name}
    {
      families := families - {name};
    }
  }

  /** Asks by registering a probe; the registry is left as it was. */
  method ClaimedOn(reg: Registry, name: string) returns (claimed: bool)
    modifies reg
    ensures claimed <==> name in old(reg.families)
    ensures reg.families == old(reg.families)
  {
    var ok := reg.Register(name);
    if !ok { return true; }
    reg.Unregister(name);
    return false;
  }

  class CustomMetrics {
    const rules: Rules
    const reg: Registry?
    var names: map<string, string>

    constructor (rules: Rules, reg: Registry?)
      ensures this.rules == rules && this.reg == reg && names == map[]
    {
      this.rules, this.reg, names := rules, reg, map[];
    }

    function Families(): set<string>
      reads this, reg
    {
      if reg == null then {} else reg.families
    }

    method Reserve(c: Claim) returns (v: Verdict)
      modifies this`names, reg
      ensures v == Judge(rules, old(names), old(Families()), c)
      ensures names == if v.Granted? then With(old(names), Keys(rules, c), c.name) else old(names)
      ensures Families() == old(Families())
      ensures v.Granted? ==>
        && rules.valid(c.name) && c.description != "" && rules.serve(c.name, c.kind).Some?
        && var s := rules.serve(c.name, c.kind).value;
           && c.name !in old(names) && s !in old(names) && s !in Families()
           && names == old(names)[c.name := c.name][s := c.name]
    {
      hide Taken, With, KeysFor, Keys, Served;
      if !rules.valid(c.name) { return InvalidName; }
      if c.description == "" { return NoDescription; }
      if rules.serve(c.name, c.kind).None? { return Unservable; }
      var served := Served(rules, c);
      var keys := KeysFor(c.name, served);
      var owner := OwnerOf(keys);
      if owner.Some? {
        return if owner.value == c.name then AlreadyRegistered else Collides(owner.value);
      }
      if reg != null {
        var claimed := ClaimedOn(reg, served);
        if claimed { return OnRegistry; }
      }
      TakeAll(keys, c.name);
      KeysAre(rules, c);
      v := Granted;
      GrantedTakes(rules, old(names), old(Families()), c);
    }

    /** The first loop of reserve. */
    method OwnerOf(keys: seq<string>) returns (owner: Option<string>)
      ensures owner == Taken(names, keys)
    {
      var i := 0;
      while i < |keys|
        invariant 0 <= i <= |keys|
        invariant Taken(names, keys) == Taken(names, keys[i..])
      {
        if keys[i] in names { return Some(names[keys[i]]); }
        assert keys[i..][1..] == keys[i + 1..];
        i := i + 1;
      }
      return None;
    }

    /** The last loop of reserve. */
    method TakeAll(keys: seq<string>, owner: string)
      modifies this`names
      ensures names == With(old(names), SetOf(keys), owner)
    {
      var i := 0;
      while i < |keys|
        invariant 0 <= i <= |keys|
        invariant forall k :: k in names <==> k in old(names) || k in keys[..i]
        invariant forall k | k in names :: names[k] == if k in keys[..i] then owner else old(names)[k]
      {
        names := names[keys[i] := owner];
        assert keys[..i + 1] == keys[..i] + [keys[i]];
        i := i + 1;
      }
      assert keys[..i] == keys;
    }

    method Release(c: Claim)
      modifies this`names
      ensures names == old(names) - Keys(rules, c)
      ensures rules.serve(c.name, c.kind).Some? ==> names == old(names) - {c.name, rules.serve(c.name, c.kind).value}
      ensures rules.serve(c.name, c.kind).None? ==> names == old(names) - {c.name}
    {
      var keys := KeysFor(c.name, Served(rules, c));
      var i := 0;
      while i < |keys|
        invariant 0 <= i <= |keys|
        invariant names == old(names) - SetOf(keys[..i])
      {
        names := names - {keys[i]};
        i := i + 1;
      }
      assert keys[..i] == keys;
      KeysAre(rules, c);
    }

    /** Counter, Gauge and Histogram: reserve, create, and release when the SDK refuses the instrument. */
    method Register(c: Claim, accepted: bool) returns (v: Verdict, created: bool)
      modifies this`names, reg
      ensures v == Judge(rules, old(names), old(Families()), c)
      ensures created <==> v.Granted? && accepted
      ensures names == if created then With(old(names), Keys(rules, c), c.name) else old(names)
      ensures Families() == old(Families())
    {
      v := Reserve(c);
      created := v.Granted? && accepted;
      if v.Granted? && !accepted {
        Release(c);
        GrantedIsFree(rules, old(names), old(Families()), c);
        assert names == old(names);
      }
    }
  }

  /** What is granted is proper, was free, and is taken under its own name and the one on /metrics. */
  lemma GrantedTakes(rules: Rules, names: map<string, string>, families: set<string>, c: Claim)
    requires Judge(rules, names, families, c).Granted?
    ensures Proper(rules, c)
    ensures
      var s := rules.serve(c.name, c.kind).value;
      && c.name !in names && s !in names && s !in families
      && With(names, Keys(rules, c), c.name) == names[c.name := c.name][s := c.name]
  {
    TakenIff(names, c.name, Served(rules, c));
    hide Taken, KeysFor;
  }

  /** Nothing that is granted was taken. */
  lemma GrantedIsFree(rules: Rules, names: map<string, string>, families: set<string>, c: Claim)
    requires Judge(rules, names, families, c).Granted?
    ensures Keys(rules, c) !! names.Keys
  {
    TakenIff(names, c.name, Served(rules, c));
    hide Taken, KeysFor;
  }

  lemma TakenIff(names: map<string, string>, name: string, served: string)
    ensures Taken(names, KeysFor(name, served)) ==
              if name in names then Some(names[name]) else if served in names then Some(names[served]) else None
  {
    var one: seq<string> := [served];
    assert one[1..] == [];
    assert Taken(names, one) == if served in names then Some(names[served]) else None;
    assert [name, served][1..] == one;
  }

  // ----- registrations that interleave -----

  /** A registration that holds its names: its instrument is being created, exists, or was refused by the SDK. */
  datatype Phase = Creating | Created | Refused

  datatype Active = Active(claim: Claim, phase: Phase)

  /** active: the registrations that hold names, by number. families: what others have put on the registry. */
  datatype State = State(names: map<string, string>, families: set<string>, active: map<nat, Active>)

  datatype Action =
    | Reserve(id: nat, claim: Claim)
    | Accept(id: nat)                 // the SDK creates the instrument
    | Refuse(id: nat)                 // or returns an error,
    | Release(id: nat)                // after which the names are given back
    | Other(family: string)           // another collector is registered

  function Act(rules: Rules, s: State, a: Action): State {
    match a
    case Reserve(id, c) =>
      if id in s.active || !Judge(rules, s.names, s.families, c).Granted? then s
      else s.(names := With(s.names, Keys(rules, c), c.name), active := s.active[id := Active(c, Creating)])
    case Accept(id) =>
      if id in s.active && s.active[id].phase.Creating?
      then s.(active := s.active[id := s.active[id].(phase := Created)]) else s
    case Refuse(id) =>
      if id in s.active && s.active[id].phase.Creating?
      then s.(active := s.active[id := s.active[id].(phase := Refused)]) else s
    case Release(id) =>
      if id in s.active && s.active[id].phase.Refused?
      then s.(names := s.names - Keys(rules, s.active[id].claim), active := s.active - {id}) else s
    case Other(f) => s.(families := s.families + {f})
  }

  /** Any number of registrations, interleaved in any way. */
  function Run(rules: Rules, schedule: seq<Action>): State {
    if schedule == [] then State(map[], {}, map[])
    else Act(rules, Run(rules, schedule[..|schedule| - 1]), schedule[|schedule| - 1])
  }

  predicate Holds(rules: Rules, active: map<nat, Active>, id: nat, k: string) {
    id in active && Takes(rules, active[id].claim, k)
  }

  /** The table holds exactly the names of the registrations, each under its owner. */
  ghost predicate TableOf(rules: Rules, names: map<string, string>, active: map<nat, Active>) {
    && (forall id, k :: Holds(rules, active, id, k) ==> k in names && names[k] == active[id].claim.name)
    && (forall k | k in names :: exists id :: Holds(rules, active, id, k))
  }

  /** No two registrations share a name. */
  ghost predicate Disjoint(rules: Rules, active: map<nat, Active>) {
    forall i, j, k :: Holds(rules, active, i, k) && Holds(rules, active, j, k) ==> i == j
  }

  ghost predicate AllProper(rules: Rules, active: map<nat, Active>) {
    forall id | id in active :: Proper(rules, active[id].claim)
  }

  lemma ReserveKeeps(rules: Rules, s: State, id: nat, c: Claim)
    requires TableOf(rules, s.names, s.active) && Disjoint(rules, s.active)
    requires id !in s.active && Keys(rules, c) !! s.names.Keys && Proper(rules, c)
    ensures
      var names, active := With(s.names, Keys(rules, c), c.name), s.active[id := Active(c, Creating)];
      TableOf(rules, names, active) && Disjoint(rules, active)
  {
    var names, active := With(s.names, Keys(rules, c), c.name), s.active[id := Active(c, Creating)];
    KeysTaken(rules, c);
    assert forall j, k :: Holds(rules, active, j, k) <==>
           if j == id then k in Keys(rules, c) else Holds(rules, s.active, j, k);
    hide Keys, Holds;
    forall k | k in names ensures exists j :: Holds(rules, active, j, k) {
      if k in Keys(rules, c) { assert Holds(rules, active, id, k); }
      else {
        var j :| Holds(rules, s.active, j, k);
        assert Holds(rules, active, j, k);
      }
    }
  }

  lemma ReleaseKeeps(rules: Rules, s: State, id: nat)
    requires TableOf(rules, s.names, s.active) && Disjoint(rules, s.active) && id in s.active
    requires Proper(rules, s.active[id].claim)
    ensures
      var names, active := s.names - Keys(rules, s.active[id].claim), s.active - {id};
      TableOf(rules, names, active) && Disjoint(rules, active)
  {
    var names, active := s.names - Keys(rules, s.active[id].claim), s.active - {id};
    KeysTaken(rules, s.active[id].claim);
    assert forall j, k :: Holds(rules, active, j, k) <==> j != id && Holds(rules, s.active, j, k);
    assert forall k :: Holds(rules, s.active, id, k) <==> k in Keys(rules, s.active[id].claim);
    hide Keys, Holds;
    forall k | k in names ensures exists j :: Holds(rules, active, j, k) {
      var j :| Holds(rules, s.active, j, k);
      assert Holds(rules, active, j, k);
    }
  }

  lemma PhaseKeeps(rules: Rules, s: State, id: nat, p: Phase)
    requires TableOf(rules, s.names, s.active) && Disjoint(rules, s.active) && id in s.active
    ensures
      var active := s.active[id := s.active[id].(phase := p)];
      TableOf(rules, s.names, active) && Disjoint(rules, active)
  {
    var active := s.active[id := s.active[id].(phase := p)];
    assert forall j, k :: Holds(rules, active, j, k) <==> Holds(rules, s.active, j, k);
    hide Keys, Holds;
    forall k | k in s.names ensures exists j :: Holds(rules, active, j, k) {
      var j :| Holds(rules, s.active, j, k);
      assert Holds(rules, active, j, k);
    }
  }

  /** However registrations interleave, the table is that of the registrations that hold names, and these are pairwise
      disjoint. What was released, or refused at once, has left nothing behind and taken nothing with it. No claim that
      is not valid, described and servable is among them. */
  lemma {:induction false} TableOfRun(rules: Rules, schedule: seq<Action>)
    ensures
      var s := Run(rules, schedule);
      TableOf(rules, s.names, s.active) && Disjoint(rules, s.active) && AllProper(rules, s.active)
  {
    if schedule != [] {
      var s, a := Run(rules, schedule[..|schedule| - 1]), schedule[|schedule| - 1];
      TableOfRun(rules, schedule[..|schedule| - 1]);
      hide TableOf, Disjoint, Keys, Judge;
      match a
      case Reserve(id, c) =>
        if id !in s.active && Judge(rules, s.names, s.families, c).Granted? {
          GrantedTakes(rules, s.names, s.families, c);
          GrantedIsFree(rules, s.names, s.families, c);
          ReserveKeeps(rules, s, id, c);
        }
      case Release(id) => if id in s.active { ReleaseKeeps(rules, s, id); }
      case Accept(id) => if id in s.active { PhaseKeeps(rules, s, id, Created); }
      case Refuse(id) => if id in s.active { PhaseKeeps(rules, s, id, Refused); }
      case Other(_) =>
    }
  }

  /** The registrations determine the table. */
  lemma TableIsUnique(rules: Rules, m: map<string, string>, n: map<string, string>, active: map<nat, Active>)
    requires TableOf(rules, m, active) && TableOf(rules, n, active)
    ensures m == n
  {
    hide Holds;
    forall k | k in m ensures k in n && n[k] == m[k] {
      var id :| Holds(rules, active, id, k);
    }
    forall k | k in n ensures k in m {
      var id :| Holds(rules, active, id, k);
    }
  }

  /** Two instruments never share a family on /metrics, nor a name, and neither is registered under the other's
      family. */
  lemma FamiliesDistinct(rules: Rules, schedule: seq<Action>, i: nat, j: nat)
    requires
      var s := Run(rules, schedule);
      i in s.active && j in s.active && i != j
    ensures
      var c, d := Run(rules, schedule).active[i].claim, Run(rules, schedule).active[j].claim;
      var f, g := rules.serve(c.name, c.kind), rules.serve(d.name, d.kind);
      f.Some? && g.Some? && f != g && c.name != d.name && f != Some(d.name) && g != Some(c.name)
  {
    TableOfRun(rules, schedule);
    var s := Run(rules, schedule);
    hide Run;
    var c, d := s.active[i].claim, s.active[j].claim;
    assert Proper(rules, c) && Proper(rules, d);
    assert Holds(rules, s.active, i, c.name) && Holds(rules, s.active, j, d.name);
    assert Holds(rules, s.active, i, rules.serve(c.name, c.kind).value);
    assert Holds(rules, s.active, j, rules.serve(d.name, d.kind).value);
    assert rules.serve(c.name, c.kind) == Some(d.name) ==> Holds(rules, s.active, i, d.name);
    assert rules.serve(d.name, d.kind) == Some(c.name) ==> Holds(rules, s.active, j, c.name);
  }

  // ----- what becomes of a registration -----

  lemma RunSnoc(rules: Rules, schedule: seq<Action>, a: Action)
    ensures Run(rules, schedule + [a]) == Act(rules, Run(rules, schedule), a)
  {
    assert (schedule + [a])[..|schedule|] == schedule;
  }

  /** Nobody else's doing, nor a second answer of the SDK, changes a registration that has had one. */
  lemma {:induction false} StaysSettled(rules: Rules, schedule: seq<Action>, id: nat, more: seq<Action>)
    requires id in Run(rules, schedule).active && !Run(rules, schedule).active[id].phase.Creating?
    requires Run(rules, schedule).active[id].phase.Refused? ==> Release(id) !in more
    ensures
      var s := Run(rules, schedule + more);
      id in s.active && s.active[id] == Run(rules, schedule).active[id]
  {
    if more == [] {
      assert schedule + more == schedule;
    } else {
      var less, a := more[..|more| - 1], more[|more| - 1];
      StaysSettled(rules, schedule, id, less);
      assert a in more;
      assert schedule + more == schedule + less + [a];
      RunSnoc(rules, schedule + less, a);
      hide Run, Judge, With, Keys;
    }
  }

  /** An instrument that the SDK accepts keeps its name and its family for ever, whatever is reserved, refused or
      released afterwards. */
  lemma AcceptedKeeps(rules: Rules, schedule: seq<Action>, id: nat, more: seq<Action>)
    requires id in Run(rules, schedule).active && Run(rules, schedule).active[id].phase.Creating?
    ensures
      var c, s := Run(rules, schedule).active[id].claim, Run(rules, schedule + [Accept(id)] + more);
      && id in s.active && s.active[id].claim == c && rules.serve(c.name, c.kind).Some?
      && c.name in s.names && s.names[c.name] == c.name
      && var f := rules.serve(c.name, c.kind).value; f in s.names && s.names[f] == c.name
  {
    var was := Run(rules, schedule);
    RunSnoc(rules, schedule, Accept(id));
    hide Run;
    StaysSettled(rules, schedule + [Accept(id)], id, more);
    TableOfRun(rules, schedule + [Accept(id)] + more);
    var c, s := was.active[id].claim, Run(rules, schedule + [Accept(id)] + more);
    assert Proper(rules, s.active[id].claim);
    assert Holds(rules, s.active, id, c.name) && Holds(rules, s.active, id, rules.serve(c.name, c.kind).value);
  }

  /** One that the SDK refuses leaves, once it is released, the table of the others, whatever happens meanwhile. */
  lemma RefusedGivesBack(rules: Rules, schedule: seq<Action>, id: nat, more: seq<Action>, names: map<string, string>)
    requires id in Run(rules, schedule).active && Run(rules, schedule).active[id].phase.Creating?
    requires Release(id) !in more
    requires TableOf(rules, names, Run(rules, schedule + [Refuse(id)] + more).active - {id})
    ensures
      var s := Run(rules, schedule + [Refuse(id)] + more + [Release(id)]);
      s.names == names && s.active == Run(rules, schedule + [Refuse(id)] + more).active - {id}
  {
    RunSnoc(rules, schedule, Refuse(id));
    hide Run;
    StaysSettled(rules, schedule + [Refuse(id)], id, more);
    ReleaseLeavesOthers(rules, schedule + [Refuse(id)] + more, id, names);
  }

  /** A registration that is reserved, refused and released, with any others reserved, created, refused or released
      meanwhile, leaves the table of those others. */
  lemma ReleaseLeavesOthers(rules: Rules, schedule: seq<Action>, id: nat, names: map<string, string>)
    requires
      var s := Run(rules, schedule);
      id in s.active && s.active[id].phase.Refused? && TableOf(rules, names, s.active - {id})
    ensures
      var s' := Run(rules, schedule + [Release(id)]);
      s'.names == names && s'.active == Run(rules, schedule).active - {id}
  {
    var s := Run(rules, schedule);
    TableOfRun(rules, schedule);
    RunSnoc(rules, schedule, Release(id));
    hide Run;
    assert Proper(rules, s.active[id].claim);
    ReleaseKeeps(rules, s, id);
    TableIsUnique(rules, s.names - Keys(rules, s.active[id].claim), names, s.active - {id});
  }

  // ----- what is turned away -----

  /** c asks for a name that d has, as registered or as served. */
  predicate Clash(rules: Rules, c: Claim, d: Claim) {
    Takes(rules, d, c.name) || (rules.serve(c.name, c.kind).Some? && Takes(rules, d, rules.serve(c.name, c.kind).value))
  }

  /** A name is in the table exactly if some registration has it, and then its owner is one that does. */
  lemma NameIsTaken(rules: Rules, s: State, k: string)
    requires TableOf(rules, s.names, s.active)
    ensures k in s.names <==> exists id :: id in s.active && Takes(rules, s.active[id].claim, k)
    ensures k in s.names ==>
              exists id ::
                id in s.active && s.active[id].claim.name == s.names[k] && Takes(rules, s.active[id].claim, k)
    ensures k in s.names && s.names[k] == k <==> exists id :: id in s.active && s.active[id].claim.name == k
  {
    forall id | id in s.active && Takes(rules, s.active[id].claim, k)
      ensures k in s.names && s.names[k] == s.active[id].claim.name
    {
      assert Holds(rules, s.active, id, k);
    }
    if k in s.names { var id :| Holds(rules, s.active, id, k); }
  }

  /** What reserve answers, for every claim and after any interleaving. A claim is refused at its name, its description
      or its family before the table is asked; the table turns it away exactly when it asks for a name that a
      registration has, as a duplicate when one is registered under its very name, else naming a registration that has
      one of the two; and it is granted exactly when, besides, no other collector has its family on the registry. */
  lemma VerdictExactly(rules: Rules, schedule: seq<Action>, c: Claim)
    ensures
      var s := Run(rules, schedule);
      var f := rules.serve(c.name, c.kind);
      match Judge(rules, s.names, s.families, c)
      case InvalidName => !rules.valid(c.name)
      case NoDescription => rules.valid(c.name) && c.description == ""
      case Unservable => rules.valid(c.name) && c.description != "" && f.None?
      case AlreadyRegistered => Proper(rules, c) && exists id :: id in s.active && s.active[id].claim.name == c.name
      case Collides(owner) =>
        && Proper(rules, c) && !(exists id :: id in s.active && s.active[id].claim.name == c.name)
        && exists id ::
             && id in s.active && s.active[id].claim.name == owner
             && (Takes(rules, s.active[id].claim, c.name) || Takes(rules, s.active[id].claim, f.value))
      case OnRegistry =>
        && Proper(rules, c) && f.value in s.families
        && !exists id :: id in s.active && Clash(rules, c, s.active[id].claim)
      case Granted =>
        && Proper(rules, c) && f.value !in s.families
        && !exists id :: id in s.active && Clash(rules, c, s.active[id].claim)
  {
    TableOfRun(rules, schedule);
    var s := Run(rules, schedule);
    TakenIff(s.names, c.name, Served(rules, c));
    NameIsTaken(rules, s, c.name);
    NameIsTaken(rules, s, Served(rules, c));
    hide Run, Taken, KeysFor, TableOf, Disjoint, Takes, AllProper;
  }

  /** A name that serving produced by a change is served unchanged, whatever the kind, if it is served at all. */
  ghost predicate Stable(rules: Rules) {
    forall c: Claim, d: Claim ::
      rules.serve(c.name, c.kind) == Some(d.name) && d.name != c.name && rules.serve(d.name, d.kind).Some? ==>
        rules.serve(d.name, d.kind) == Some(d.name)
  }

  /** The same name or the same family on /metrics. */
  predicate SameMetric(rules: Rules, c: Claim, d: Claim) {
    c.name == d.name || rules.serve(c.name, c.kind) == rules.serve(d.name, d.kind)
  }

  predicate Servable(rules: Rules, c: Claim) {
    rules.serve(c.name, c.kind).Some?
  }

  /** A clash is what it should be, the same name or the same family on /metrics, exactly under stable rules. */
  lemma StableExactly(rules: Rules)
    ensures Stable(rules) <==>
              forall c, d | Servable(rules, c) && Servable(rules, d) :: Clash(rules, c, d) <==> SameMetric(rules, c, d)
  {
    if forall c, d | Servable(rules, c) && Servable(rules, d) :: Clash(rules, c, d) <==> SameMetric(rules, c, d) {
      forall c: Claim, d: Claim
        | rules.serve(c.name, c.kind) == Some(d.name) && d.name != c.name && rules.serve(d.name, d.kind).Some?
        ensures rules.serve(d.name, d.kind) == Some(d.name)
      {
        assert Servable(rules, c) && Servable(rules, d) && Clash(rules, c, d);
      }
    }
  }

  lemma StableRejects(rules: Rules, schedule: seq<Action>, c: Claim)
    requires Proper(rules, c) && Stable(rules)
    ensures
      var s := Run(rules, schedule);
      var v := Judge(rules, s.names, s.families, c);
      (v.AlreadyRegistered? || v.Collides?) <==>
        exists id :: id in s.active && SameMetric(rules, c, s.active[id].claim)
  {
    VerdictExactly(rules, schedule, c);
    TableOfRun(rules, schedule);
    var s := Run(rules, schedule);
    forall id | id in s.active
      ensures Clash(rules, c, s.active[id].claim) <==> SameMetric(rules, c, s.active[id].claim)
      ensures Clash(rules, c, s.active[id].claim) <==>
              Takes(rules, s.active[id].claim, c.name)
              || Takes(rules, s.active[id].claim, rules.serve(c.name, c.kind).value)
      ensures s.active[id].claim.name == c.name ==> Clash(rules, c, s.active[id].claim)
    {
      assert Servable(rules, c) && Servable(rules, s.active[id].claim);
      StableExactly(rules);
    }
    hide Run, Clash, SameMetric, Takes, Judge, Stable, TableOf, Disjoint, AllProper;
  }

  // ----- the translator in use -----

  predicate Suffixed(name: string) {
    |name| >= 6 && name[|name| - 6..] == "_total"
  }

  /** Counters are served with the suffix _total, appended when it is missing; the rest under their own names. */
  function Total(name: string, kind: Kind): Option<string> {
    if kind.Counter? && !Suffixed(name) then Some(name + "_total") else Some(name)
  }

  lemma TotalIsStable(rules: Rules)
    requires rules.serve == Total
    ensures Stable(rules)
  {
    forall c: Claim, d: Claim | rules.serve(c.name, c.kind) == Some(d.name) && d.name != c.name
      ensures rules.serve(d.name, d.kind) == Some(d.name)
    {
      assert d.name[|d.name| - 6..] == "_total";
    }
  }

  /** ... so that with the translator in use, a valid claim with a description is turned away by the table exactly when
      its name or its family is that of a registration that holds names. */
  lemma TotalRejects(rules: Rules, schedule: seq<Action>, c: Claim)
    requires rules.serve == Total && rules.valid(c.name) && c.description != ""
    ensures
      var s := Run(rules, schedule);
      var v := Judge(rules, s.names, s.families, c);
      (v.AlreadyRegistered? || v.Collides?) <==>
        exists id ::
          && id in s.active
          && var d := s.active[id].claim; c.name == d.name || Total(c.name, c.kind) == Total(d.name, d.kind)
  {
    TotalIsStable(rules);
    StableRejects(rules, schedule, c);
    var s := Run(rules, schedule);
    hide Run, Judge, Stable;
    assert forall id | id in s.active :: SameMetric(rules, c, s.active[id].claim) <==>
             var d := s.active[id].claim; c.name == d.name || Total(c.name, c.kind) == Total(d.name, d.kind);
  }

  /** A counter that is registered under another counter's family collides with that one. */
  lemma CounterCollides(rules: Rules, schedule: seq<Action>, id: nat, c: Claim)
    requires rules.serve == Total && rules.valid(c.name) && c.description != "" && c.kind.Counter?
    requires id in Run(rules, schedule).active
    requires
      var d := Run(rules, schedule).active[id].claim;
      d.kind.Counter? && !Suffixed(d.name) && c.name == d.name + "_total"
    ensures
      var s := Run(rules, schedule);
      var v := Judge(rules, s.names, s.families, c);
      v == Collides(s.active[id].claim.name)
  {
    var s := Run(rules, schedule);
    var d := s.active[id].claim;
    TableOfRun(rules, schedule);
    VerdictExactly(rules, schedule, c);
    assert rules.serve(d.name, d.kind) == Some(c.name);
    assert Suffixed(c.name) by { assert c.name[|c.name| - 6..] == "_total"; }
    assert Holds(rules, s.active, id, c.name);
    assert Clash(rules, c, d);
    hide Run, Judge;
    forall j | j in s.active && Takes(rules, s.active[j].claim, c.name) ensures j == id {
      assert Holds(rules, s.active, j, c.name);
    }
  }
}
