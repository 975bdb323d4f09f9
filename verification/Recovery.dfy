/** Recovery layers around HTTP handlers: which panics are counted, and when a layer may answer 500. */
module Recovery {

  // ----- handlers and what they do -----

  /** What a handler does to its response writer that commits the response. */
  datatype Op = WriteHeader(code: nat) | Write | Flush | ReadFrom | Hijack

  /** What arrives at a writer: an operation of the handler's, or a layer's own WriteHeader(500). */
  datatype Sent = ByHandler(op: Op) | ByLayer

  /** A panic's value: http.ErrAbortHandler, or any other. */
  datatype Panic = Abort | Value(v: nat)

  datatype Outcome = Normal | Panicked(p: Panic)

  /** A handler with the layers and the middleware around it. Shielded code has a recover of its own. */
  datatype Handler =
    | Nothing
    | Do(op: Op)
    | Raise(p: Panic)
    | Then(first: Handler, second: Handler)
    | Recovering(body: Handler)
    | Shielded(body: Handler)

  /** One run of a handler: how it ends, what it sent to its writer, and the panics that were raised, recorded by a
      layer and swallowed by a shield, each in order. */
  datatype Trace = Trace(end: Outcome, sent: seq<Sent>, raised: seq<Panic>, counted: seq<nat>, swallowed: seq<Panic>)

  function Exec(h: Handler): Trace {
    match h
    case Nothing => Trace(Normal, [], [], [], [])
    case Do(op) => Trace(Normal, [ByHandler(op)], [], [], [])
    case Raise(p) => Trace(Panicked(p), [], [p], [], [])
    case Then(a, b) =>
      var x := Exec(a);
      if x.end.Panicked? then x
      else
        var y := Exec(b);
        Trace(y.end, x.sent + y.sent, x.raised + y.raised, x.counted + y.counted, x.swallowed + y.swallowed)
    case Recovering(b) => Recovered(Exec(b))
    case Shielded(b) => Shield(Exec(b))
  }

  /** What a layer makes of its body: an abort is raised again; any other panic is recorded, and answered with 500
      if the body has sent nothing. */
  function Recovered(x: Trace): Trace {
    match x.end
    case Normal => x
    case Panicked(Abort) => x
    case Panicked(Value(v)) =>
      x.(end := Normal, counted := x.counted + [v], sent := x.sent + if x.sent == [] then [ByLayer] else [])
  }

  /** A shield ends normally and sends nothing. */
  function Shield(x: Trace): Trace {
    if x.end.Normal? then x else x.(end := Normal, swallowed := x.swallowed + [x.end.p])
  }

  // ----- the same, read off the handler's structure -----

  predicate IsValue(end: Outcome) { end.Panicked? && end.p.Value? }

  /** How h ends. */
  function EndOf(h: Handler): Outcome {
    match h
    case Nothing => Normal
    case Do(_) => Normal
    case Raise(p) => Panicked(p)
    case Then(a, b) => if EndOf(a).Panicked? then EndOf(a) else EndOf(b)
    case Recovering(b) => if IsValue(EndOf(b)) then Normal else EndOf(b)
    case Shielded(_) => Normal
  }

  /** The operations that h comes to before a panic stops it, in order. */
  function Reached(h: Handler): seq<Op> {
    match h
    case Nothing => []
    case Do(op) => [op]
    case Raise(_) => []
    case Then(a, b) => Reached(a) + if EndOf(a).Normal? then Reached(b) else []
    case Recovering(b) => Reached(b)
    case Shielded(b) => Reached(b)
  }

  /** h comes to an operation, or to a layer that answers for a body that has come to neither. */
  predicate Sends(h: Handler) {
    match h
    case Nothing => false
    case Do(_) => true
    case Raise(_) => false
    case Then(a, b) => Sends(a) || (EndOf(a).Normal? && Sends(b))
    case Recovering(b) => Sends(b) || IsValue(EndOf(b))
    case Shielded(b) => Sends(b)
  }

  /** The layer around b answers for it. */
  predicate Answers(b: Handler) {
    IsValue(EndOf(b)) && !Sends(b)
  }

  /** What becomes of a panic: nearest around it is a layer, a shield, or nothing that would stop it. */
  datatype Fate = Recorded | Swallowed | Escapes

  /** The panics that h raises, in order, each with its fate; value and abort are those of a panic that nothing in h
      stops: a layer stops every panic but an abort, a shield stops all. */
  function Fates(h: Handler, value: Fate, abort: Fate): seq<(Panic, Fate)> {
    match h
    case Nothing => []
    case Do(_) => []
    case Raise(p) => [(p, if p.Abort? then abort else value)]
    case Then(a, b) => Fates(a, value, abort) + if EndOf(a).Normal? then Fates(b, value, abort) else []
    case Recovering(b) => Fates(b, Recorded, abort)
    case Shielded(b) => Fates(b, Swallowed, Swallowed)
  }

  /** The handler's operations among what was sent. */
  function OpsOf(sent: seq<Sent>): seq<Op> {
    if sent == [] then []
    else
      var last := sent[|sent| - 1];
      OpsOf(sent[..|sent| - 1]) + if last.ByHandler? then [last.op] else []
  }

  lemma {:induction false} OpsAppend(a: seq<Sent>, b: seq<Sent>)
    ensures OpsOf(a + b) == OpsOf(a) + OpsOf(b)
  {
    if b == [] {
      assert a + b == a;
    } else {
      assert (a + b)[..|a + b| - 1] == a + b[..|b| - 1];
      OpsAppend(a, b[..|b| - 1]);
    }
  }

  lemma {:induction false} OpsHold(sent: seq<Sent>, op: Op)
    ensures op in OpsOf(sent) <==> ByHandler(op) in sent
  {
    if sent != [] {
      var last := sent[|sent| - 1];
      OpsHold(sent[..|sent| - 1], op);
      assert sent == sent[..|sent| - 1] + [last];
    }
  }

  lemma {:induction false} EndsAs(h: Handler)
    ensures Exec(h).end == EndOf(h) && (Exec(h).sent != [] <==> Sends(h))
  {
    match h
    case Then(a, b) => EndsAs(a); EndsAs(b);
    case Recovering(b) => EndsAs(b);
    case Shielded(b) => EndsAs(b);
    case _ =>
  }

  lemma LayerAddsNone(x: Trace)
    ensures OpsOf(Recovered(x).sent) == OpsOf(x.sent)
  {
    OpsAppend(x.sent, [ByLayer]);
    assert OpsOf([ByLayer]) == [];
    assert x.sent + [] == x.sent;
  }

  lemma {:induction false} SendsInOrder(h: Handler)
    ensures OpsOf(Exec(h).sent) == Reached(h)
  {
    EndsAs(h);
    match h
    case Then(a, b) =>
      EndsAs(a);
      SendsInOrder(a);
      SendsInOrder(b);
      OpsAppend(Exec(a).sent, Exec(b).sent);
    case Recovering(b) =>
      SendsInOrder(b);
      LayerAddsNone(Exec(b));
    case Shielded(b) => SendsInOrder(b);
    case _ =>
  }

  /** A handler ends as its structure says, and sends exactly the operations it comes to, in order: each of them, the
      taking over of the connection too, whatever layers and shields are around it. */
  lemma SendsWhatItReaches(h: Handler)
    ensures Exec(h).end == EndOf(h) && (Exec(h).sent != [] <==> Sends(h))
    ensures OpsOf(Exec(h).sent) == Reached(h)
    ensures forall op :: ByHandler(op) in Exec(h).sent <==> op in Reached(h)
  {
    hide Exec, EndOf, Sends, Reached;
    EndsAs(h);
    SendsInOrder(h);
    forall op ensures ByHandler(op) in Exec(h).sent <==> op in Reached(h) { OpsHold(Exec(h).sent, op); }
  }

  // ----- the layers as they run -----

  /** The writer a layer hands on: wrote is set by every operation that passes through. */
  class Tracked {
    var wrote: bool

    constructor ()
      ensures !wrote
    {
      wrote := false;
    }
  }

  /** The connection and the panic counter. */
  class Server {
    var sent: seq<Sent>
    var counted: seq<nat>

    constructor ()
      ensures sent == [] && counted == []
    {
      sent, counted := [], [];
    }

    /** An operation on a writer wrapped by chain, the innermost layer's first. */
    method Pass(chain: seq<Tracked>, op: Sent)
      modifies this`sent, chain
      ensures sent == old(sent) + [op]
      ensures forall w | w in chain :: w.wrote
    {
      var i := 0;
      while i < |chain|
        modifies chain
        invariant 0 <= i <= |chain|
        invariant forall k | 0 <= k < i :: chain[k].wrote
      {
        chain[i].wrote := true;
        i := i + 1;
      }
      sent := sent + [op];
    }

    /** endpoint.Recovered: false for http.ErrAbortHandler, else the panic is recorded. */
    method Record(p: Panic) returns (respond: bool)
      modifies this`counted
      ensures respond <==> p != Abort
      ensures counted == old(counted) + if p.Value? then [p.v] else []
    {
      if p.Abort? { return false; }
      counted := counted + [p.v];
      return true;
    }

    /** Serves h on the writer that chain wraps. The connection gets the operations that h comes to, and every layer of
        the chain has responded, then, exactly if it had before or h comes to an operation or a layer's answer. */
    method Serve(h: Handler, chain: seq<Tracked>) returns (end: Outcome)
      modifies this, chain
      ensures end == Exec(h).end
      ensures sent == old(sent) + Exec(h).sent
      ensures counted == old(counted) + Exec(h).counted
      ensures forall w | w in chain :: w.wrote <==> old(w.wrote) || Exec(h).sent != []
      ensures end == EndOf(h) && OpsOf(sent) == OpsOf(old(sent)) + Reached(h)
      ensures Values(counted) == Values(old(counted)) + Meeting(Fates(h, Escapes, Escapes), Recorded)
      ensures forall w | w in chain :: w.wrote <==> old(w.wrote) || Sends(h)
      decreases h
    {
      hide EndOf, Reached, Sends, OpsOf, Meeting, Fates, Values;
      SendsWhatItReaches(h);
      PanicsMeetTheirFate(h);
      ValuesSplit(counted, Exec(h).counted);
      OpsAppend(sent, Exec(h).sent);
      match h
      case Nothing => end := Normal;
      case Do(op) =>
        Pass(chain, ByHandler(op));
        end := Normal;
      case Raise(p) => end := Panicked(p);
      case Then(a, b) =>
        end := Serve(a, chain);
        if end.Normal? { end := Serve(b, chain); }
      case Shielded(b) =>
        end := Serve(b, chain);
        end := Normal;
      case Recovering(b) =>
        var tracked := new Tracked();
        end := Serve(b, [tracked] + chain);
        if end.Panicked? {
          var respond := Record(end.p);
          if respond {
            end := Normal;
            if !tracked.wrote { Pass([tracked] + chain, ByLayer); }
          }
        }
    }
  }

  // ----- every panic is counted once -----

  function Values(counted: seq<nat>): (ps: seq<Panic>)
    ensures |ps| == |counted|
  {
    seq(|counted|, i requires 0 <= i < |counted| => Value(counted[i]))
  }

  function Escaping(end: Outcome): seq<Panic> {
    if end.Normal? then [] else [end.p]
  }

  lemma ValuesSplit(a: seq<nat>, b: seq<nat>)
    ensures Values(a + b) == Values(a) + Values(b)
  {
  }

  /** All the panics a run accounts for. */
  function Accounted(x: Trace): multiset<Panic> {
    multiset(Values(x.counted)) + multiset(x.swallowed) + multiset(Escaping(x.end))
  }

  lemma AccountedInTurn(x: Trace, y: Trace, z: Trace)
    requires x.end.Normal? && z.end == y.end && z.counted == x.counted + y.counted
    requires z.swallowed == x.swallowed + y.swallowed
    ensures Accounted(z) == Accounted(x) + Accounted(y)
  {
    ValuesSplit(x.counted, y.counted);
  }

  lemma AccountedByLayer(x: Trace)
    ensures Accounted(Recovered(x)) == Accounted(x)
  {
    if x.end.Panicked? && x.end.p.Value? {
      ValuesSplit(x.counted, [x.end.p.v]);
      assert Values([x.end.p.v]) == [x.end.p];
    }
  }

  lemma AccountedByShield(x: Trace)
    ensures Accounted(Shield(x)) == Accounted(x)
  {
  }

  lemma AccountedAtLeaf(h: Handler)
    requires h.Nothing? || h.Do? || h.Raise?
    ensures multiset(Exec(h).raised) == Accounted(Exec(h))
  {
    assert Values([]) == [];
  }

  /** Whatever the handler and its layers, each panic raised is recorded once, swallowed by a shield, or escapes. */
  lemma {:induction false} EachPanicOnce(h: Handler)
    ensures multiset(Exec(h).raised) == Accounted(Exec(h))
  {
    hide Accounted;
    match h
    case Then(a, b) =>
      EachPanicOnce(a);
      EachPanicOnce(b);
      if Exec(a).end.Normal? { AccountedInTurn(Exec(a), Exec(b), Exec(h)); }
    case Recovering(b) =>
      EachPanicOnce(b);
      AccountedByLayer(Exec(b));
    case Shielded(b) =>
      EachPanicOnce(b);
      AccountedByShield(Exec(b));
    case _ => AccountedAtLeaf(h);
  }

  /** The panics that meet the fate f. */
  function Meeting(fs: seq<(Panic, Fate)>, f: Fate): seq<Panic> {
    if fs == [] then []
    else
      var last := fs[|fs| - 1];
      Meeting(fs[..|fs| - 1], f) + if last.1 == f then [last.0] else []
  }

  function Panics(fs: seq<(Panic, Fate)>): seq<Panic> {
    seq(|fs|, i requires 0 <= i < |fs| => fs[i].0)
  }

  lemma {:induction false} MeetingAppend(a: seq<(Panic, Fate)>, b: seq<(Panic, Fate)>, f: Fate)
    ensures Meeting(a + b, f) == Meeting(a, f) + Meeting(b, f)
  {
    if b == [] {
      assert a + b == a;
    } else {
      assert (a + b)[..|a + b| - 1] == a + b[..|b| - 1];
      MeetingAppend(a, b[..|b| - 1], f);
    }
  }

  /** The panic that escapes from h, if it meets the fate f outside. */
  function Leaving(end: Outcome, value: Fate, abort: Fate, f: Fate): seq<Panic> {
    if end.Panicked? && f == (if end.p.Abort? then abort else value) then [end.p] else []
  }

  function Inside(x: Trace, f: Fate): seq<Panic> {
    match f
    case Recorded => Values(x.counted)
    case Swallowed => x.swallowed
    case Escapes => []
  }

  lemma InTurn(fa: seq<(Panic, Fate)>, fb: seq<(Panic, Fate)>, x: Trace, y: Trace, z: Trace,
               value: Fate, abort: Fate, f: Fate)
    requires x.end.Normal? && z.end == y.end && z.counted == x.counted + y.counted
    requires z.swallowed == x.swallowed + y.swallowed
    requires Meeting(fa, f) == Inside(x, f) + Leaving(x.end, value, abort, f)
    requires Meeting(fb, f) == Inside(y, f) + Leaving(y.end, value, abort, f)
    ensures Meeting(fa + fb, f) == Inside(z, f) + Leaving(z.end, value, abort, f)
  {
    hide Meeting;
    MeetingAppend(fa, fb, f);
    ValuesSplit(x.counted, y.counted);
  }

  lemma InsideLayer(x: Trace, value: Fate, abort: Fate, f: Fate)
    ensures Inside(Recovered(x), f) + Leaving(Recovered(x).end, value, abort, f) ==
              Inside(x, f) + Leaving(x.end, Recorded, abort, f)
  {
    if x.end.Panicked? && x.end.p.Value? {
      ValuesSplit(x.counted, [x.end.p.v]);
      assert Values([x.end.p.v]) == [x.end.p];
    }
  }

  lemma InsideShield(x: Trace, value: Fate, abort: Fate, f: Fate)
    ensures Inside(Shield(x), f) + Leaving(Shield(x).end, value, abort, f) ==
              Inside(x, f) + Leaving(x.end, Swallowed, Swallowed, f)
  {
  }

  lemma MeetsAtLeaf(h: Handler, value: Fate, abort: Fate, f: Fate)
    requires h.Nothing? || h.Do? || h.Raise?
    ensures Meeting(Fates(h, value, abort), f) == Inside(Exec(h), f) + Leaving(Exec(h).end, value, abort, f)
  {
    if h.Raise? { assert Fates(h, value, abort)[..0] == []; }
  }

  lemma {:induction false} Meets(h: Handler, value: Fate, abort: Fate, f: Fate)
    ensures Meeting(Fates(h, value, abort), f) == Inside(Exec(h), f) + Leaving(Exec(h).end, value, abort, f)
    decreases h
  {
    hide Inside, Meeting, Leaving, Recovered, Shield;
    match h
    case Then(a, b) =>
      EndsAs(a);
      Meets(a, value, abort, f);
      Meets(b, value, abort, f);
      if Exec(a).end.Normal? {
        InTurn(Fates(a, value, abort), Fates(b, value, abort), Exec(a), Exec(b), Exec(h), value, abort, f);
      } else {
        assert Fates(h, value, abort) == Fates(a, value, abort);
      }
    case Recovering(b) =>
      Meets(b, Recorded, abort, f);
      InsideLayer(Exec(b), value, abort, f);
    case Shielded(b) =>
      Meets(b, Swallowed, Swallowed, f);
      InsideShield(Exec(b), value, abort, f);
    case _ => MeetsAtLeaf(h, value, abort, f);
  }

  lemma {:induction false} RaisedAll(h: Handler, value: Fate, abort: Fate)
    ensures Panics(Fates(h, value, abort)) == Exec(h).raised
    decreases h
  {
    match h
    case Then(a, b) =>
      EndsAs(a);
      RaisedAll(a, value, abort);
      RaisedAll(b, value, abort);
    case Recovering(b) => RaisedAll(b, Recorded, abort);
    case Shielded(b) => RaisedAll(b, Swallowed, Swallowed);
    case _ =>
  }

  /** Of all the panics a handler comes to, those are recorded, in order, whose nearest stop is a layer, those are
      swallowed whose nearest stop is a shield, and at most one, the last, has none and escapes. */
  lemma PanicsMeetTheirFate(h: Handler)
    ensures
      var x, fs := Exec(h), Fates(h, Escapes, Escapes);
      && Panics(fs) == x.raised && Meeting(fs, Recorded) == Values(x.counted) && Meeting(fs, Swallowed) == x.swallowed
      && Meeting(fs, Escapes) == Escaping(x.end)
  {
    RaisedAll(h, Escapes, Escapes);
    Meets(h, Escapes, Escapes, Recorded);
    Meets(h, Escapes, Escapes, Swallowed);
    Meets(h, Escapes, Escapes, Escapes);
    hide Fates, Exec, Meeting;
  }

  predicate Unshielded(h: Handler) {
    match h
    case Then(a, b) => Unshielded(a) && Unshielded(b)
    case Recovering(b) => Unshielded(b)
    case Shielded(_) => false
    case _ => true
  }

  /** Without shields the count is exact and in order: the panics raised are those recorded, followed by the one that
      escapes, if any. */
  lemma {:induction false} CountedInOrder(h: Handler)
    requires Unshielded(h)
    ensures
      var x := Exec(h);
      x.raised == Values(x.counted) + Escaping(x.end)
  {
    match h
    case Then(a, b) =>
      CountedInOrder(a);
      CountedInOrder(b);
      ValuesSplit(Exec(a).counted, Exec(b).counted);
    case Recovering(b) =>
      CountedInOrder(b);
      var x := Exec(b);
      if x.end.Panicked? && x.end.p.Value? {
        ValuesSplit(x.counted, [x.end.p.v]);
        assert Values([x.end.p.v]) == [x.end.p];
      }
    case _ =>
  }

  /** n layers around h. */
  function Layers(n: nat, h: Handler): Handler {
    if n == 0 then h else Recovering(Layers(n - 1, h))
  }

  /** One layer is as good as many: a panic is counted once by any number of layers, it escapes uncounted without one,
      and http.ErrAbortHandler passes through all of them, uncounted and unanswered. */
  lemma {:induction false} LayersCountOnce(n: nat, h: Handler)
    ensures
      var x, y := Exec(h), Exec(Layers(n, h));
      match x.end
      case Normal => y == x
      case Panicked(Abort) => y == x
      case Panicked(Value(v)) =>
        if n == 0 then y == x
        else y.end == Normal && y.counted == x.counted + [v] && (y.sent == if x.sent == [] then [ByLayer] else x.sent)
  {
    if n > 0 { LayersCountOnce(n - 1, h); }
  }

  // ----- the answer -----

  /** What the client gets: the first operation commits the response. */
  datatype Response = Nil | Status(code: nat) | Hijacked

  function Committed(sent: seq<Sent>): Response {
    if sent == [] then Nil
    else match sent[0]
      case ByHandler(WriteHeader(code)) => Status(code)
      case ByHandler(Hijack) => Hijacked
      case ByHandler(_) => Status(200)
      case ByLayer => Status(500)
  }

  /** A layer's 500 that comes after something else. */
  ghost predicate Overwrites(sent: seq<Sent>) {
    exists i :: 0 < i < |sent| && sent[i].ByLayer?
  }

  predicate Layerless(h: Handler) {
    match h
    case Then(a, b) => Layerless(a) && Layerless(b)
    case Recovering(_) => false
    case Shielded(b) => Layerless(b)
    case _ => true
  }

  predicate Quiet(h: Handler) {
    match h
    case Do(_) => false
    case Then(a, b) => Quiet(a) && Quiet(b)
    case Recovering(_) => false
    case Shielded(b) => Quiet(b)
    case _ => true
  }

  /** Nothing is sent before a layer is entered. */
  predicate Waits(h: Handler) {
    match h
    case Then(a, b) => Waits(a) && Waits(b) && (Quiet(a) || Layerless(b))
    case Recovering(b) => Waits(b)
    case Shielded(b) => Waits(b)
    case _ => true
  }

  lemma {:induction false} QuietSendsNothing(h: Handler)
    requires Quiet(h)
    ensures Exec(h).sent == []
  {
    match h
    case Then(a, b) => QuietSendsNothing(a); QuietSendsNothing(b);
    case Shielded(b) => QuietSendsNothing(b);
    case _ =>
  }

  /** Some layer of h answers late: its body panics, not with an abort, having sent nothing, when something has been
      sent before the layer was entered. already tells whether something has been sent before h. */
  predicate Late(h: Handler, already: bool) {
    match h
    case Then(a, b) => Late(a, already) || (EndOf(a).Normal? && Late(b, already || Sends(a)))
    case Recovering(b) => Late(b, already) || (already && Answers(b))
    case Shielded(b) => Late(b, already)
    case _ => false
  }

  lemma OverwritesSplit(x: seq<Sent>, y: seq<Sent>, s: Sent)
    ensures Overwrites(x) ==> Overwrites(x + y)
    ensures Overwrites(x + [s]) <==> Overwrites(x) || (x != [] && s.ByLayer?)
  {
    if Overwrites(x) {
      var i :| 0 < i < |x| && x[i].ByLayer?;
      assert (x + y)[i].ByLayer? && (x + [s])[i].ByLayer?;
    }
    if x != [] && s.ByLayer? { assert (x + [s])[|x|].ByLayer?; }
  }

  /** A layer cannot see what was sent before it was entered. Its 500, and that of any layer inside it, goes over what
      is there exactly when it answers late: for every handler, and whatever was sent before. */
  lemma {:induction false} OverwritesExactly(before: seq<Sent>, h: Handler)
    requires !Overwrites(before)
    ensures Overwrites(before + Exec(h).sent) <==> Late(h, before != [])
    decreases h
  {
    match h
    case Then(a, b) =>
      OverwritesExactly(before, a);
      EndsAs(a);
      var x, y := Exec(a), Exec(b);
      if x.end.Normal? {
        assert before + (x.sent + y.sent) == before + x.sent + y.sent;
        if Late(a, before != []) { OverwritesSplit(before + x.sent, y.sent, ByLayer); }
        else { OverwritesExactly(before + x.sent, b); }
      }
    case Recovering(b) =>
      OverwritesExactly(before, b);
      EndsAs(b);
      var x := Exec(b);
      assert Exec(h) == Recovered(x);
      assert Recovered(x).sent == if x.sent == [] && x.end.Panicked? && x.end.p.Value? then [ByLayer] else x.sent;
      OverwritesSplit(before, [], ByLayer);
      assert before + [] == before;
    case Shielded(b) => OverwritesExactly(before, b);
    case Do(op) => OverwritesSplit(before, [], ByHandler(op));
    case _ => assert before + [] == before;
  }

  lemma {:induction false} LayerlessNeverLate(h: Handler, already: bool)
    requires Layerless(h)
    ensures !Late(h, already)
  {
    match h
    case Then(a, b) => LayerlessNeverLate(a, already); LayerlessNeverLate(b, already || Sends(a));
    case Shielded(b) => LayerlessNeverLate(b, already);
    case _ =>
  }

  lemma {:induction false} WaitsNeverLate(h: Handler)
    requires Waits(h)
    ensures !Late(h, false)
  {
    match h
    case Then(a, b) =>
      WaitsNeverLate(a);
      if Quiet(a) { QuietSendsNothing(a); EndsAs(a); WaitsNeverLate(b); } else { LayerlessNeverLate(b, Sends(a)); }
    case Recovering(b) => WaitsNeverLate(b);
    case Shielded(b) => WaitsNeverLate(b);
    case _ =>
  }

  /** As long as nothing is sent before a layer is entered, no layer, however nested, writes its 500 over a status or a
      hijacked connection: all that is sent after the first is the handler's own, and all of it when the first is. */
  lemma NeverOverPriorStatus(h: Handler)
    requires Waits(h)
    ensures
      var sent := Exec(h).sent;
      && (forall i | 0 < i < |sent| :: sent[i].ByHandler?)
      && OpsOf(sent) == Reached(h)
      && (sent != [] && sent[0].ByHandler? ==>
            |sent| == |Reached(h)| && forall i | 0 <= i < |sent| :: sent[i] == ByHandler(Reached(h)[i]))
  {
    WaitsNeverLate(h);
    OverwritesExactly([], h);
    assert [] + Exec(h).sent == Exec(h).sent;
    SendsWhatItReaches(h);
    if Exec(h).sent != [] && Exec(h).sent[0].ByHandler? { AllByHandler(Exec(h).sent); }
  }

  lemma {:induction false} AllByHandler(sent: seq<Sent>)
    requires forall s | s in sent :: s.ByHandler?
    ensures |OpsOf(sent)| == |sent| && forall i | 0 <= i < |sent| :: sent[i] == ByHandler(OpsOf(sent)[i])
  {
    if sent != [] { AllByHandler(sent[..|sent| - 1]); }
  }

  /** What the layer answers: it adds its 500 exactly when its body panics, not with an abort, having come to no
      operation and no answer of a layer inside it; else the client gets what the body sent. */
  lemma PanicAnswered(b: Handler)
    ensures Exec(Recovering(b)).sent == Exec(b).sent + if IsValue(EndOf(b)) && !Sends(b) then [ByLayer] else []
    ensures Committed(Exec(Recovering(b)).sent) ==
              if IsValue(EndOf(b)) && !Sends(b) then Status(500) else Committed(Exec(b).sent)
  {
    EndsAs(b);
    assert Exec(Recovering(b)) == Recovered(Exec(b));
    assert Exec(b).sent + [] == Exec(b).sent;
  }

  /** Around a body without layers: the client gets what the body's first operation says, and none of its own, not even
      of a body that panics later, when that took over the connection. */
  lemma LayerAnswers(b: Handler)
    requires Layerless(b)
    ensures
      var answer := Committed(Exec(Recovering(b)).sent);
      if Reached(b) == [] then answer == if IsValue(EndOf(b)) then Status(500) else Nil
      else match Reached(b)[0]
        case WriteHeader(code) => answer == Status(code)
        case Hijack => answer == Hijacked && ByLayer !in Exec(Recovering(b)).sent
        case _ => answer == Status(200)
  {
    PanicAnswered(b);
    SendsWhatItReaches(b);
    LayerlessSends(b);
    AllByHandler(Exec(b).sent);
    hide Exec, EndOf, Sends, Reached, OpsOf;
  }

  lemma {:induction false} LayerlessSends(h: Handler)
    requires Layerless(h)
    ensures forall s | s in Exec(h).sent :: s.ByHandler?
  {
    match h
    case Then(a, b) => LayerlessSends(a); LayerlessSends(b);
    case Shielded(b) => LayerlessSends(b);
    case _ =>
  }

  /** Middleware without layers around one layer: the 500 goes over its answer exactly when it has given one and the
      body panics, not with an abort, before it sends anything, or a layer inside the body answers late. */
  lemma OverwritesMiddleware(before: Handler, b: Handler)
    requires EndOf(before).Normal? && Layerless(before)
    ensures
      Overwrites(Exec(Then(before, Recovering(b))).sent) <==>
        Late(b, Reached(before) != []) || (Reached(before) != [] && IsValue(EndOf(b)) && !Sends(b))
  {
    hide Exec, EndOf, Sends, Reached, OpsOf, Layerless;
    var h := Then(before, Recovering(b));
    assert [] + Exec(h).sent == Exec(h).sent;
    assert Overwrites([] + Exec(h).sent) <==> Late(h, false) by { OverwritesExactly([], h); }
    hide Overwrites;
    LayerlessNeverLate(before, false);
    assert Sends(before) <==> Reached(before) != [] by {
      SendsWhatItReaches(before);
      LayerlessSends(before);
      AllByHandler(Exec(before).sent);
    }
    assert Late(h, false) <==> Late(Recovering(b), Sends(before));
  }

  /** For one: a status sent by the middleware, then a panic inside. */
  lemma OverwritesOnce(code: nat, v: nat)
    ensures Overwrites(Exec(Then(Do(WriteHeader(code)), Recovering(Raise(Value(v))))).sent)
  {
    OverwritesMiddleware(Do(WriteHeader(code)), Raise(Value(v)));
  }

  // ----- the options -----

  datatype Option = WithSkipPaths(paths: seq<string>) | WithoutRecovery

  datatype Config = Config(noRecover: bool, skip: set<string>)

  /** Applies the options in turn. What comes out does not depend on their order. */
  method Configure(opts: seq<Option>) returns (cfg: Config)
    ensures cfg.noRecover <==> WithoutRecovery in opts
    ensures forall p :: p in cfg.skip <==> exists i :: 0 <= i < |opts| && opts[i].WithSkipPaths? && p in opts[i].paths
  {
    cfg := Config(false, {});
    for i := 0 to |opts|
      invariant cfg.noRecover <==> WithoutRecovery in opts[..i]
      invariant forall p :: p in cfg.skip <==> exists j :: 0 <= j < i && opts[j].WithSkipPaths? && p in opts[j].paths
    {
      match opts[i]
      case WithSkipPaths(paths) => cfg := cfg.(skip := cfg.skip + set p | p in paths);
      case WithoutRecovery => cfg := cfg.(noRecover := true);
    }
    assert opts[..|opts|] == opts;
  }

  /** The chain Handler builds, and the one gin's Instrument builds: its own layer inside the engine, Handler's
      outside. */
  function Chain(opts: seq<Option>, h: Handler): Handler {
    if WithoutRecovery in opts then h else Recovering(h)
  }

  function GinChain(opts: seq<Option>, h: Handler): Handler {
    Chain(opts, if WithoutRecovery in opts then h else Recovering(h))
  }

  /** The two chains count alike, whatever the order of the options: once, or not at all under WithoutRecovery. */
  lemma ChainsCountAlike(opts: seq<Option>, permuted: seq<Option>, h: Handler)
    requires multiset(opts) == multiset(permuted)
    ensures
      var x, y := Exec(h), Exec(Chain(permuted, h));
      && Exec(GinChain(opts, h)) == y
      && if WithoutRecovery in opts || !IsValue(EndOf(h)) then y == x
         else
           && y.end == Normal && x.end.Panicked? && x.end.p.Value? && y.counted == x.counted + [x.end.p.v]
           && y.sent == if Sends(h) then x.sent else [ByLayer]
  {
    assert WithoutRecovery in opts <==> WithoutRecovery in multiset(opts);
    assert WithoutRecovery in permuted <==> WithoutRecovery in multiset(permuted);
    EndsAs(h);
    LayersCountOnce(1, h);
    LayersCountOnce(2, h);
  }
}
