/** The trace-correlated log handler: a fast path that reuses a prepared handler and a slow path that replays the
    WithAttrs and WithGroup calls after stamping. */
module Logging {
  import opened Wrappers

  datatype Attr = Attr(key: string, value: string)

  /** An attribute as written: under the groups open where it was given. */
  datatype Placed = Placed(path: seq<string>, attr: Attr)

  function At(path: seq<string>, attrs: seq<Attr>): (r: seq<Placed>)
    ensures |r| == |attrs| && forall i | 0 <= i < |r| :: r[i] == Placed(path, attrs[i])
  {
    seq(|attrs|, i requires 0 <= i < |attrs| => Placed(path, attrs[i]))
  }

  /** What slog asks of a handler: attributes and groups given so far; the groups qualify what comes after. */
  datatype Sink = Sink(preset: seq<Placed>, open: seq<string>) {

    function WithAttrs(attrs: seq<Attr>): Sink {
      this.(preset := preset + At(open, attrs))
    }

    function WithGroup(name: string): Sink {
      if name == "" then this else this.(open := open + [name])
    }

    /** The line written for a record. */
    function Handle(rec: seq<Attr>): seq<Placed> {
      preset + At(open, rec)
    }
  }

  /** One WithGroup call, or, with an empty group, one WithAttrs call. */
  datatype GroupOrAttrs = GroupOrAttrs(group: string, attrs: seq<Attr>)

  function With(base: Sink, ga: GroupOrAttrs): Sink {
    if ga.group != "" then base.WithGroup(ga.group) else base.WithAttrs(ga.attrs)
  }

  /** The calls made on base, in order. */
  function Replay(base: Sink, goas: seq<GroupOrAttrs>): Sink {
    if goas == [] then base else With(Replay(base, goas[..|goas| - 1]), goas[|goas| - 1])
  }

  predicate Grouped(goas: seq<GroupOrAttrs>) {
    exists i :: 0 <= i < |goas| && goas[i].group != ""
  }

  // ----- stamps -----

  /** The span in the context, and the process's service name. */
  datatype Scope = Scope(span: Option<(string, string)>, service: string)

  function Stamps(scope: Scope): seq<Attr> {
    (if scope.span.Some? then [Attr("trace_id", scope.span.value.0), Attr("span_id", scope.span.value.1)] else [])
    + (if scope.service != "" then [Attr("service.name", scope.service)] else [])
  }

  /** What the handler is for: each attribute where the calls on base put it, and the stamps at base's own level. */
  function Stamped(base: Sink, goas: seq<GroupOrAttrs>, rec: seq<Attr>, st: seq<Attr>): multiset<Placed> {
    multiset(Replay(base, goas).Handle(rec)) + multiset(At(base.open, st))
  }

  /** The attribute is one of those that tell trace, span and service apart, with the value the scope has for it. */
  predicate Tells(scope: Scope, a: Attr) {
    || (a.key == "trace_id" && scope.span.Some? && a.value == scope.span.value.0)
    || (a.key == "span_id" && scope.span.Some? && a.value == scope.span.value.1)
    || (a.key == "service.name" && scope.service != "" && a.value == scope.service)
  }

  lemma AtSplit(path: seq<string>, a: seq<Attr>, b: seq<Attr>)
    ensures At(path, a + b) == At(path, a) + At(path, b)
  {
  }

  lemma AtOne(path: seq<string>, a: Attr, p: Placed)
    ensures multiset(At(path, [a]))[p] == if p == Placed(path, a) then 1 else 0
  {
    assert At(path, [a]) == [Placed(path, a)];
  }

  lemma SpanTells(path: seq<string>, span: (string, string), p: Placed)
    ensures
      multiset(At(path, [Attr("trace_id", span.0), Attr("span_id", span.1)]))[p] ==
        if p == Placed(path, Attr("trace_id", span.0)) || p == Placed(path, Attr("span_id", span.1)) then 1 else 0
  {
    var trace, id := Attr("trace_id", span.0), Attr("span_id", span.1);
    assert [trace, id] == [trace] + [id];
    assert |trace.key| != |id.key|;
    AtSplit(path, [trace], [id]);
    hide At;
    AtOne(path, trace, p);
    AtOne(path, id, p);
  }

  /** The stamps are those attributes, each once. */
  lemma StampsTell(path: seq<string>, scope: Scope, p: Placed)
    ensures multiset(At(path, Stamps(scope)))[p] == if p.path == path && Tells(scope, p.attr) then 1 else 0
  {
    var span :=
      if scope.span.Some? then [Attr("trace_id", scope.span.value.0), Attr("span_id", scope.span.value.1)] else [];
    var service := if scope.service != "" then [Attr("service.name", scope.service)] else [];
    assert Stamps(scope) == span + service;
    AtSplit(path, span, service);
    assert At(path, []) == [];
    hide At, Stamps;
    if scope.span.Some? { SpanTells(path, scope.span.value, p); }
    if scope.service != "" { AtOne(path, service[0], p); }
    assert |"service.name"| != |"trace_id"| && |"service.name"| != |"span_id"|;
  }

  /** What the calls and then a record write, read from the front: a group holds for all that comes after it, and an
      attribute is written under the groups that are open where it is given. */
  function Written(open: seq<string>, calls: seq<GroupOrAttrs>, rec: seq<Attr>): seq<Placed>
    decreases calls
  {
    if calls == [] then At(open, rec)
    else if calls[0].group != "" then Written(open + [calls[0].group], calls[1..], rec)
    else At(open, calls[0].attrs) + Written(open, calls[1..], rec)
  }

  lemma {:induction false} ReplayFront(base: Sink, ga: GroupOrAttrs, goas: seq<GroupOrAttrs>)
    ensures Replay(base, [ga] + goas) == Replay(With(base, ga), goas)
  {
    if goas == [] {
      assert ([ga] + goas)[..0] == [];
    } else {
      assert ([ga] + goas)[..|goas|] == [ga] + goas[..|goas| - 1];
      ReplayFront(base, ga, goas[..|goas| - 1]);
    }
  }

  lemma {:induction false} ReplayWrites(base: Sink, calls: seq<GroupOrAttrs>, rec: seq<Attr>)
    ensures Replay(base, calls).Handle(rec) == base.preset + Written(base.open, calls, rec)
    decreases calls
  {
    if calls != [] {
      assert calls == [calls[0]] + calls[1..];
      ReplayFront(base, calls[0], calls[1..]);
      ReplayWrites(With(base, calls[0]), calls[1..], rec);
    }
  }

  /** How often p stands in the line: as often as base had it already, or the calls and the record write it, and once
      more if it is a stamp at base's own level. */
  ghost predicate LineIs(line: seq<Placed>, base: Sink, calls: seq<GroupOrAttrs>, rec: seq<Attr>, scope: Scope) {
    forall p ::
      multiset(line)[p] == multiset(base.preset)[p] + multiset(Written(base.open, calls, rec))[p]
                           + if p.path == base.open && Tells(scope, p.attr) then 1 else 0
  }

  lemma StampedLine(line: seq<Placed>, base: Sink, calls: seq<GroupOrAttrs>, rec: seq<Attr>, scope: Scope)
    requires multiset(line) == Stamped(base, calls, rec, Stamps(scope))
    ensures LineIs(line, base, calls, rec, scope)
  {
    ReplayWrites(base, calls, rec);
    hide Stamps, Tells, Written, Replay, At;
    forall p
      ensures multiset(line)[p] == multiset(base.preset)[p] + multiset(Written(base.open, calls, rec))[p]
                                   + if p.path == base.open && Tells(scope, p.attr) then 1 else 0
    {
      StampsTell(base.open, scope, p);
    }
  }

  // ----- what replaying does -----

  /** Replaying on a stamped base gives the same groups, and puts the stamps behind base's own attributes. */
  lemma {:induction false} ReplayStamped(base: Sink, goas: seq<GroupOrAttrs>, st: seq<Attr>)
    ensures
      var plain, stamped := Replay(base, goas), Replay(base.WithAttrs(st), goas);
      && stamped.open == plain.open
      && |base.preset| <= |plain.preset| && plain.preset[..|base.preset|] == base.preset
      && stamped.preset == base.preset + At(base.open, st) + plain.preset[|base.preset|..]
  {
    if goas != [] {
      ReplayStamped(base, goas[..|goas| - 1], st);
    }
  }

  lemma {:induction false} ReplayOpens(base: Sink, goas: seq<GroupOrAttrs>)
    ensures base.open <= Replay(base, goas).open
    ensures Grouped(goas) <==> Replay(base, goas).open != base.open
  {
    if goas != [] {
      var less, last := goas[..|goas| - 1], goas[|goas| - 1];
      ReplayOpens(base, less);
      assert Grouped(goas) <==> Grouped(less) || last.group != "" by {
        if Grouped(less) {
          var i :| 0 <= i < |less| && less[i].group != "";
          assert goas[i] == less[i];
        }
        if last.group != "" { assert goas[|goas| - 1] == last; }
      }
    }
  }

  /** The slow path is right for every chain of calls. */
  lemma SlowPath(base: Sink, goas: seq<GroupOrAttrs>, rec: seq<Attr>, st: seq<Attr>)
    ensures multiset(Replay(base.WithAttrs(st), goas).Handle(rec)) == Stamped(base, goas, rec, st)
  {
    ReplayStamped(base, goas, st);
    var plain := Replay(base, goas);
    var rest := plain.preset[|base.preset|..];
    assert plain.preset == base.preset + rest;
    hide Replay, At;
    assert Replay(base.WithAttrs(st), goas).Handle(rec) == base.preset + At(base.open, st) + rest + At(plain.open, rec);
  }

  lemma AtElsewhere(p: seq<string>, q: seq<string>, st: seq<Attr>)
    requires p != q && st != []
    ensures multiset(At(p, st)) != multiset(At(q, st))
  {
    assert At(p, st)[0] in multiset(At(p, st));
    assert forall x | x in At(q, st) :: x.path == q;
  }

  /** The fast path is right exactly when no group is open, or there is nothing to stamp. */
  lemma FastPathExactly(base: Sink, goas: seq<GroupOrAttrs>, rec: seq<Attr>, st: seq<Attr>)
    ensures multiset(Replay(base, goas).Handle(rec + st)) == Stamped(base, goas, rec, st) <==>
            !Grouped(goas) || st == []
  {
    var plain := Replay(base, goas);
    ReplayOpens(base, goas);
    AtSplit(plain.open, rec, st);
    hide Replay, Grouped;
    var line := plain.Handle(rec);
    assert plain.Handle(rec + st) == line + At(plain.open, st);
    if plain.open != base.open && st != [] {
      AtElsewhere(plain.open, base.open, st);
      Cancel(multiset(line), multiset(At(plain.open, st)));
      Cancel(multiset(line), multiset(At(base.open, st)));
    }
  }

  lemma Cancel(a: multiset<Placed>, b: multiset<Placed>)
    ensures (a + b) - a == b
  {
  }

  // ----- chains of calls -----

  /** The calls as they are kept: WithAttrs without attributes and WithGroup("") return the handler itself, and a
      group has no attributes of its own. */
  function Kept(calls: seq<GroupOrAttrs>): seq<GroupOrAttrs> {
    if calls == [] then []
    else
      var less, last := Kept(calls[..|calls| - 1]), calls[|calls| - 1];
      if last.group != "" then less + [GroupOrAttrs(last.group, [])]
      else if last.attrs == [] then less
      else less + [last]
  }

  lemma ReplaySnoc(base: Sink, goas: seq<GroupOrAttrs>, ga: GroupOrAttrs)
    ensures Replay(base, goas + [ga]) == With(Replay(base, goas), ga)
  {
    assert (goas + [ga])[..|goas|] == goas;
  }

  lemma {:induction false} KeptReplays(base: Sink, calls: seq<GroupOrAttrs>)
    ensures Replay(base, Kept(calls)) == Replay(base, calls)
  {
    if calls != [] {
      var less, last := calls[..|calls| - 1], calls[|calls| - 1];
      KeptReplays(base, less);
      if last.group != "" {
        ReplaySnoc(base, Kept(less), GroupOrAttrs(last.group, []));
      } else if last.attrs == [] {
        assert With(Replay(base, less), last).preset == Replay(base, less).preset;
      } else {
        ReplaySnoc(base, Kept(less), last);
      }
    }
  }

  // ----- the handler -----

  class LogHandler {
    const base: Sink
    const applied: Sink
    const goas: array<GroupOrAttrs>
    const grouped: bool

    ghost predicate Valid()
      reads goas
    {
      applied == Replay(base, goas[..]) && (grouped <==> Grouped(goas[..]))
    }

    constructor (base: Sink)
      ensures Valid() && fresh(goas) && goas[..] == [] && this.base == base
    {
      this.base := base;
      this.applied := base;
      this.goas := new GroupOrAttrs[0];
      this.grouped := false;
    }

    constructor Make(base: Sink, applied: Sink, goas: array<GroupOrAttrs>, grouped: bool)
      ensures this.base == base && this.applied == applied && this.goas == goas && this.grouped == grouped
    {
      this.base, this.applied, this.goas, this.grouped := base, applied, goas, grouped;
    }

    /** Whatever the calls made on h, the line holds each attribute where they put it, the stamps at base's level. */
    method Handle(scope: Scope, rec: seq<Attr>) returns (line: seq<Placed>)
      requires Valid()
      ensures multiset(line) == Stamped(base, goas[..], rec, Stamps(scope))
      ensures LineIs(line, base, goas[..], rec, scope)
    {
      var st := Stamps(scope);
      if |st| == 0 {
        FastPathExactly(base, goas[..], rec, st);
        assert rec + st == rec;
        line := applied.Handle(rec);
        StampedLine(line, base, goas[..], rec, scope);
        return;
      }
      if !grouped {
        FastPathExactly(base, goas[..], rec, st);
        line := applied.Handle(rec + st);
        StampedLine(line, base, goas[..], rec, scope);
        return;
      }
      var h := base.WithAttrs(st);
      var i := 0;
      while i < goas.Length
        invariant 0 <= i <= goas.Length
        invariant h == Replay(base.WithAttrs(st), goas[..i])
      {
        assert goas[..i + 1][..i] == goas[..i];
        if goas[i].group != "" { h := h.WithGroup(goas[i].group); } else { h := h.WithAttrs(goas[i].attrs); }
        i := i + 1;
      }
      assert goas[..i] == goas[..];
      SlowPath(base, goas[..], rec, st);
      line := h.Handle(rec);
      StampedLine(line, base, goas[..], rec, scope);
    }

    /** A new handler with its own copy of the list, one call longer; h and every handler made from it stay as they
        are. */
    method Extend(ga: GroupOrAttrs) returns (h: LogHandler)
      requires Valid()
      ensures fresh(h) && fresh(h.goas) && h.Valid()
      ensures h.base == base && h.goas[..] == goas[..] + [ga]
    {
      var longer := new GroupOrAttrs[goas.Length + 1](_ => ga);
      var i := 0;
      while i < goas.Length
        invariant 0 <= i <= goas.Length
        invariant longer[goas.Length] == ga
        invariant longer[..i] == goas[..i]
      {
        longer[i] := goas[i];
        i := i + 1;
      }
      var sink := if ga.group != "" then applied.WithGroup(ga.group) else applied.WithAttrs(ga.attrs);
      h := new LogHandler.Make(base, sink, longer, grouped || ga.group != "");
      assert longer[..] == goas[..] + [ga];
      ReplaySnoc(base, goas[..], ga);
      GroupedSnoc(goas[..], ga);
    }

    method WithAttrs(attrs: seq<Attr>) returns (h: LogHandler)
      requires Valid()
      ensures h.Valid() && h.base == base
      ensures if attrs == [] then h == this
              else fresh(h) && fresh(h.goas) && h.goas[..] == goas[..] + [GroupOrAttrs("", attrs)]
    {
      if |attrs| == 0 { return this; }
      h := Extend(GroupOrAttrs("", attrs));
    }

    method WithGroup(name: string) returns (h: LogHandler)
      requires Valid()
      ensures h.Valid() && h.base == base
      ensures if name == "" then h == this
              else fresh(h) && fresh(h.goas) && h.goas[..] == goas[..] + [GroupOrAttrs(name, [])]
    {
      if name == "" { return this; }
      h := Extend(GroupOrAttrs(name, []));
    }
  }

  lemma GroupedSnoc(goas: seq<GroupOrAttrs>, ga: GroupOrAttrs)
    ensures Grouped(goas + [ga]) <==> Grouped(goas) || ga.group != ""
  {
    var more := goas + [ga];
    if Grouped(goas) {
      var i :| 0 <= i < |goas| && goas[i].group != "";
      assert more[i] == goas[i];
    }
    if ga.group != "" { assert more[|goas|] == ga; }
  }

  /** Any chain of calls on a new handler, then a record: what is written is what base writes after the same calls, with
      the stamps at base's own level. */
  method LogThrough(base: Sink, calls: seq<GroupOrAttrs>, scope: Scope, rec: seq<Attr>) returns (line: seq<Placed>)
    ensures multiset(line) == Stamped(base, calls, rec, Stamps(scope)) && LineIs(line, base, calls, rec, scope)
  {
    var h := new LogHandler(base);
    var i := 0;
    while i < |calls|
      invariant 0 <= i <= |calls| && h.Valid() && h.base == base
      invariant h.goas[..] == Kept(calls[..i])
    {
      assert calls[..i + 1][..i] == calls[..i];
      if calls[i].group != "" { h := h.WithGroup(calls[i].group); } else { h := h.WithAttrs(calls[i].attrs); }
      i := i + 1;
    }
    assert calls[..i] == calls;
    KeptReplays(base, calls);
    line := h.Handle(scope, rec);
    StampedLine(line, base, calls, rec, scope);
  }
}
