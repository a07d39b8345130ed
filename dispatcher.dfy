/** Dispatching one request down the stack (`app.handle` and its `next`
    closure, lib/proto.js:95-177). */
module Dispatcher {
  import opened Values
  import opened JsString
  import opened Routing
  import opened Registrar
  import opened Invoker

  /** The request fields the dispatcher reads and writes. `originalUrl` is
      "" while unset (JavaScript's `undefined` and '' are both falsy). */
  class Request {
    var url: string
    var originalUrl: string

    constructor (url: string)
      ensures this.url == url && originalUrl == ""
    {
      this.url := url;
      originalUrl := "";
    }
  }

  /** The function `done` stands for (lines 108-111): the caller's `out`, or
      the default final handler when none is given. */
  datatype Done = Out(id: nat) | FinalHandler

  /** The result of one pass through the body of `next` (lines 116-173),
      before the handler is called: the stack was exhausted and `done` was
      scheduled, the layer did not match, or the layer matched and the URL
      was rewritten for it. */
  datatype StepOutcome = Exhausted | Skipped | Matched(layer: nat)

  /** The result of a call `next(err)` up to the point where control leaves
      the dispatcher: `done` was scheduled with `err`, or a handler is invoked. */
  datatype NextOutcome = Finished(err: ErrValue) | Invoked(layer: nat, mode: Invocation)

  /** A layer that, at its index, takes the request: its route matches the
      path and `call` would run its handler for the pending error. */
  predicate Runs(layer: Layer, path: string, err: ErrValue) {
    Matches(path, layer.route) && Select(Arity(layer.handle), err) != Forwarded
  }

  /** Where the traversal, at layer `from`, next hands the request to a
      handler: the first layer at or after `from` that runs, or `None` when
      none does before the end of the stack. */
  function Scan(stack: seq<Layer>, from: nat, path: string, err: ErrValue): (r: Option<nat>)
    ensures r.Some? ==> from <= r.value < |stack| && Runs(stack[r.value], path, err)
    decreases |stack| - from
  {
    if from >= |stack| then None
    else if Runs(stack[from], path, err) then Some(from)
    else Scan(stack, from + 1, path, err)
  }

  /** `Scan` finds the first layer that runs: the one it returns runs, and no
      layer before it (or, when it returns `None`, none at all) does. */
  lemma {:induction false} ScanFindsFirst(stack: seq<Layer>, from: nat, path: string, err: ErrValue)
    ensures var r := Scan(stack, from, path, err);
      (r.Some? ==> from <= r.value < |stack| && Runs(stack[r.value], path, err)) &&
      (forall j :: from <= j < |stack| && (r.None? || j < r.value) ==> !Runs(stack[j], path, err))
    decreases |stack| - from
  {
    if from < |stack| && !Runs(stack[from], path, err) {
      ScanFindsFirst(stack, from + 1, path, err);
    }
  }

  /** One pass of `next` decides the search at layer `i`: whether the layer
      runs depends on the path only up to case, so a pass that matched the
      route against a path equal up to case either ends the search there or
      leaves it to the layers after `i`. */
  lemma ScanAtStep(stack: seq<Layer>, i: nat, path: string, seen: string, err: ErrValue)
    requires i < |stack| && Lower(seen) == Lower(path)
    ensures Scan(stack, i, path, err) ==
      if Matches(seen, stack[i].route) && Select(Arity(stack[i].handle), err) != Forwarded then Some(i)
      else Scan(stack, i + 1, path, err)
  {
    MatchesIgnoresCase(seen, path, stack[i].route);
  }

  /** A layer appended to the stack (as `use` does, even during a traversal)
      is reached: the search finds what it found before, and when it found
      nothing it now stops at the new layer exactly when that layer runs. */
  lemma {:induction false} ScanAppended(stack: seq<Layer>, layer: Layer, from: nat, path: string, err: ErrValue)
    requires from <= |stack|
    ensures Scan(stack + [layer], from, path, err) ==
      if Scan(stack, from, path, err).Some? then Scan(stack, from, path, err)
      else if Runs(layer, path, err) then Some(|stack|)
      else None
    decreases |stack| - from
  {
    var longer := stack + [layer];
    if from == |stack| {
      assert longer[from] == layer;
      assert Scan(longer, from + 1, path, err) == None;
    } else {
      assert longer[from] == stack[from];
      ScanAppended(stack, layer, from + 1, path, err);
    }
  }

  /** What a handler does when it is invoked. User code is not part of this
      model; these are the effects the dispatcher can observe. */
  datatype Behaviour =
    | CallsNext(err: ErrValue)            // calls next(err), then returns
    | Throws(thrown: ErrValue)            // throws synchronously
    | Returns                             // returns without calling next (it ended the response, or the request hangs)
    | UsesThenCallsNext(route: Option<string>, f: Fn, err: ErrValue)  // registers a layer on this app, then calls next(err)

  /** The value the traversal continues with after a handler that `call`
      invoked behaved as `b`, or `None` when nothing calls `next`. */
  function Continuation(arity: nat, err: ErrValue, b: Behaviour): Option<ErrValue> {
    match b
    case CallsNext(e) => Some(e)
    case UsesThenCallsNext(_, _, e) => Some(e)
    case Returns => Call(arity, err, Returned)
    case Throws(e) => Call(arity, err, Threw(e))
  }

  /** A handler that throws is, to the layers after it, the same as one that
      calls `next` with what it threw; one that returns stops the traversal. */
  lemma ThrowingIsCallingNext(arity: nat, err: ErrValue, e: ErrValue)
    requires Select(arity, err) != Forwarded
    ensures Continuation(arity, err, Throws(e)) == Continuation(arity, err, CallsNext(e)) == Some(e)
    ensures Continuation(arity, err, Returns) == None
  {
  }

  /** One handler invocation as seen by the dispatcher. */
  datatype Visit = Visit(layer: nat, route: string, arity: nat, err: ErrValue, mode: Invocation, url: string)

  /** A visit agrees with the stack: it names a layer of `stack` with that
      layer's route and arity, and the mode `call` runs it in, which is never
      a hand-back. */
  predicate Recorded(v: Visit, stack: seq<Layer>) {
    v.layer < |stack| && v.route == stack[v.layer].route && v.arity == Arity(stack[v.layer].handle) &&
    v.mode == Select(v.arity, v.err) && v.mode != Forwarded
  }

  /** Registering more layers keeps earlier visits in agreement. */
  lemma RecordedGrows(v: Visit, stack: seq<Layer>, longer: seq<Layer>)
    requires Recorded(v, stack) && stack <= longer
    ensures Recorded(v, longer)
  {
    assert longer[v.layer] == stack[v.layer];
  }

  /** How a driven traversal ended: `done` was scheduled with `err`, a
      handler returned without calling `next`, or the behaviours given ran
      out while a handler still held the request. */
  datatype Ending = DoneScheduled(err: ErrValue) | Stopped(layer: nat) | Pending(layer: nat)

  /** The URL the layer at `to` is matched against, in a call `next(err)`
      that started at layer `from` with resting URL `url` and passed every
      layer in between without a handler keeping the request: each of them
      may have cut its route out and put it back (`Pass`). */
  function Passed(stack: seq<Layer>, from: nat, upto: nat, url: string, protohost: string, fqdn: nat): string
    requires upto <= |stack|
    decreases upto
  {
    if upto <= from then url
    else Pass(Passed(stack, from, upto - 1, url, protohost, fqdn), protohost, stack[upto - 1].route, fqdn)
  }

  /** Passing one more layer applies that layer's `Pass`; when `next`
      starts past the end of the stack, no layer is passed. */
  lemma PassedStep(stack: seq<Layer>, from: nat, i: nat, url: string, protohost: string, fqdn: nat)
    requires i <= |stack|
    ensures i < |stack| && from <= i ==>
      Passed(stack, from, i + 1, url, protohost, fqdn) == Pass(Passed(stack, from, i, url, protohost, fqdn), protohost, stack[i].route, fqdn)
    ensures i <= from ==> Passed(stack, from, i, url, protohost, fqdn) == url
  {
  }

  /** However many layers are passed, the URL keeps `protohost` at its front
      and stays the same up to ASCII case. */
  lemma {:induction false} PassedKeepsUrl(stack: seq<Layer>, from: nat, upto: nat, url: string, protohost: string, fqdn: nat)
    requires upto <= |stack|
    requires protohost <= url && (fqdn == 0 ==> protohost == "")
    ensures protohost <= Passed(stack, from, upto, url, protohost, fqdn)
    ensures Lower(Passed(stack, from, upto, url, protohost, fqdn)) == Lower(url)
    decreases upto
  {
    if upto > from {
      PassedKeepsUrl(stack, from, upto - 1, url, protohost, fqdn);
      PassKeepsUrl(Passed(stack, from, upto - 1, url, protohost, fqdn), protohost, stack[upto - 1].route, fqdn);
    }
  }

  /** One handler turn as the traversal sees it: the handler invoked
      (`None` when `done` is scheduled instead) and the URL at rest
      afterwards, which the next call of `next` starts from. */
  datatype Turn = Turn(visit: Option<Visit>, url: string)

  /** What a call `next(err)` made with `index == from` and resting URL `url`
      does. It invokes the first layer from `from` on that runs (`Scan`), in
      the mode `call` picks, and that layer's handler sees the URL cut for its
      route. When no layer runs, `done` is scheduled with the URL every
      layer's pass left. */
  function Pick(stack: seq<Layer>, from: nat, url: string, err: ErrValue, protohost: string, fqdn: nat): (turn: Turn)
    ensures TurnAgrees(stack, from, err, turn)
  {
    match Scan(stack, from, Pathname(url, protohost, fqdn), err)
    case None => Turn(None, Passed(stack, from, |stack|, url, protohost, fqdn))
    case Some(i) =>
      var arity := Arity(stack[i].handle);
      var seen := EnteredUrl(Passed(stack, from, i, url, protohost, fqdn), protohost, stack[i].route, fqdn);
      Turn(Some(Visit(i, stack[i].route, arity, err, Select(arity, err), seen)), Passed(stack, from, i + 1, url, protohost, fqdn))
  }

  /** A turn agrees with the stack it was taken on: the handler it invokes is
      a layer at or after `from`, recorded with that layer's route and arity,
      the pending error, and the mode `call` runs it in. */
  predicate TurnAgrees(stack: seq<Layer>, from: nat, err: ErrValue, turn: Turn) {
    turn.visit.Some? ==> from <= turn.visit.value.layer && Recorded(turn.visit.value, stack) && turn.visit.value.err == err
  }

  /** `Pick` hands the request to the layer `next` would: it runs, no layer
      between `from` and it runs (none at all when `done` is scheduled), its
      handler sees the URL cut for its route, and every URL involved is the
      one `next` started from, up to ASCII case. */
  lemma PickFindsFirst(stack: seq<Layer>, from: nat, url: string, err: ErrValue, protohost: string, fqdn: nat)
    requires protohost <= url && (fqdn == 0 ==> protohost == "")
    ensures var turn := Pick(stack, from, url, err, protohost, fqdn); var path := Pathname(url, protohost, fqdn);
      protohost <= turn.url && Lower(turn.url) == Lower(url) &&
      (turn.visit.None? ==> forall j :: from <= j < |stack| ==> !Runs(stack[j], path, err)) &&
      (turn.visit.Some? ==> var v := turn.visit.value;
        Runs(stack[v.layer], path, err) &&
        (forall j :: from <= j < v.layer ==> !Runs(stack[j], path, err)) &&
        Lower(v.url) == Lower(EnteredUrl(url, protohost, v.route, fqdn)))
  {
    var path := Pathname(url, protohost, fqdn);
    ScanFindsFirst(stack, from, path, err);
    match Scan(stack, from, path, err)
    case None =>
      assert Pick(stack, from, url, err, protohost, fqdn).url == Passed(stack, from, |stack|, url, protohost, fqdn);
      PassedKeepsUrl(stack, from, |stack|, url, protohost, fqdn);
    case Some(i) =>
      var seen := EnteredUrl(Passed(stack, from, i, url, protohost, fqdn), protohost, stack[i].route, fqdn);
      assert Pick(stack, from, url, err, protohost, fqdn) ==
        Turn(Some(Visit(i, stack[i].route, Arity(stack[i].handle), err, Select(Arity(stack[i].handle), err), seen)),
             Passed(stack, from, i + 1, url, protohost, fqdn));
      PickedKeepsUrl(stack, from, i, url, protohost, fqdn);
  }

  /** The URLs of a turn that invokes the layer at `i`: the one at rest
      afterwards and the one its handler sees agree with `url` up to ASCII
      case, and the first keeps `protohost`. */
  lemma PickedKeepsUrl(stack: seq<Layer>, from: nat, i: nat, url: string, protohost: string, fqdn: nat)
    requires from <= i < |stack|
    requires protohost <= url && (fqdn == 0 ==> protohost == "")
    ensures var rest := Passed(stack, from, i + 1, url, protohost, fqdn);
      protohost <= rest && Lower(rest) == Lower(url)
    ensures Lower(EnteredUrl(Passed(stack, from, i, url, protohost, fqdn), protohost, stack[i].route, fqdn)) ==
      Lower(EnteredUrl(url, protohost, stack[i].route, fqdn))
  {
    PassedKeepsUrl(stack, from, i, url, protohost, fqdn);
    PassedKeepsUrl(stack, from, i + 1, url, protohost, fqdn);
    EnteredUrlIgnoresCase(Passed(stack, from, i, url, protohost, fqdn), url, protohost, stack[i].route, fqdn);
  }

  /** A way of taking a handler turn: from a stack, the index `next` starts
      at, the resting URL and the pending error. */
  type Turns = (seq<Layer>, nat, string, ErrValue) -> Turn

  /** The turns of a traversal of `app.handle` with these `protohost` and
      `fqdn`. */
  function TurnsOf(protohost: string, fqdn: nat): Turns {
    (stack: seq<Layer>, from: nat, url: string, err: ErrValue) => Pick(stack, from, url, err, protohost, fqdn)
  }

  /** Every turn of a traversal of `app.handle` agrees with the stack it is
      taken on. */
  lemma TurnsOfAgree(protohost: string, fqdn: nat)
    ensures forall stack, from, url, err :: TurnAgrees(stack, from, err, TurnsOf(protohost, fqdn)(stack, from, url, err))
  {
    forall stack, from, url, err
      ensures TurnAgrees(stack, from, err, TurnsOf(protohost, fqdn)(stack, from, url, err))
    {
      var _ := Pick(stack, from, url, err, protohost, fqdn);
    }
  }

  /** The stack once a handler that behaved as `b` has returned: a handler
      that registers a layer has appended it, as `use` does. */
  function Registered(stack: seq<Layer>, b: Behaviour): seq<Layer> {
    if b.UsesThenCallsNext? then stack + [Layer(NormalizeRoute(b.route), HandleOf(Callable(b.f)))] else stack
  }

  /** A driven traversal as a value: the handler invocations in order, how
      it ended, the stack at the end, and the URL at rest at the end (the
      URL `done` sees when it is scheduled). */
  datatype Trace = Trace(visits: seq<Visit>, end: Ending, stack: seq<Layer>, url: string)

  /** The traversal from a call `next(err)` with `index == from` and resting
      URL `url`, where each turn is taken as `turns` says and the handlers
      invoked behave as `script` in turn: a handler's behaviour decides the
      stack and the value passed to the next `next`, which starts after the
      layer invoked, from the URL that layer leaves behind. */
  function Traverse(turns: Turns, stack: seq<Layer>, from: nat, url: string, err: ErrValue, script: seq<Behaviour>): Trace
    decreases |script|
  {
    var turn := turns(stack, from, url, err);
    match turn.visit
    case None => Trace([], DoneScheduled(err), stack, turn.url)
    case Some(v) =>
      if script == [] then Trace([v], Pending(v.layer), stack, turn.url)
      else
        var grown := Registered(stack, script[0]);
        match Continuation(v.arity, err, script[0])
        case None => Trace([v], Stopped(v.layer), grown, turn.url)
        case Some(e) =>
          var t := Traverse(turns, grown, v.layer + 1, turn.url, e, script[1..]);
          Trace([v] + t.visits, t.end, t.stack, t.url)
  }

  /** The first turn of a traversal: what `Traverse` is once the turn from
      `from` is known, for each way it can go. */
  lemma TraverseOnce(turns: Turns, stack: seq<Layer>, from: nat, url: string, err: ErrValue, script: seq<Behaviour>)
    ensures var t := Traverse(turns, stack, from, url, err, script); var turn := turns(stack, from, url, err);
      (turn.visit.None? ==> t == Trace([], DoneScheduled(err), stack, turn.url)) &&
      (turn.visit.Some? && script == [] ==> t == Trace([turn.visit.value], Pending(turn.visit.value.layer), stack, turn.url)) &&
      (turn.visit.Some? && script != [] && Continuation(turn.visit.value.arity, err, script[0]).None? ==>
        t == Trace([turn.visit.value], Stopped(turn.visit.value.layer), Registered(stack, script[0]), turn.url))
  {
  }

  /** A traversal whose first handler passes `e` on goes on from the layer
      after it, with the stack that handler left and the URL at rest. */
  lemma TraverseGoesOn(turns: Turns, stack: seq<Layer>, from: nat, url: string, err: ErrValue, script: seq<Behaviour>,
                        v: Visit, e: ErrValue, grown: seq<Layer>, url': string)
    requires turns(stack, from, url, err) == Turn(Some(v), url') && script != []
    requires Continuation(v.arity, err, script[0]) == Some(e) && grown == Registered(stack, script[0])
    ensures var rest := Traverse(turns, grown, v.layer + 1, url', e, script[1..]);
      Traverse(turns, stack, from, url, err, script) == Trace([v] + rest.visits, rest.end, rest.stack, rest.url)
  {
  }

  /** A traversal after its first turn, told by what that turn did: the
      handler it invoked (if any), the stack and `index` it left, and what the
      handler passed to `next`, as its behaviour (the first of `script`)
      decides. */
  lemma TraverseTurn(turns: Turns, stack: seq<Layer>, from: nat, url: string, err: ErrValue, script: seq<Behaviour>,
                     visit: Option<Visit>, next: Option<ErrValue>, stack': seq<Layer>, from': nat, url': string)
    requires turns(stack, from, url, err) == Turn(visit, url')
    requires visit.None? ==> stack' == stack
    requires visit.Some? ==>
      from' == visit.value.layer + 1 &&
      stack' == (if script != [] then Registered(stack, script[0]) else stack) &&
      next == (if script == [] then None else Continuation(visit.value.arity, err, script[0]))
    ensures var t := Traverse(turns, stack, from, url, err, script);
      match visit
      case None => t == Trace([], DoneScheduled(err), stack', url')
      case Some(v) =>
        if script == [] then t == Trace([v], Pending(v.layer), stack', url')
        else if next.None? then t == Trace([v], Stopped(v.layer), stack', url')
        else
          var rest := Traverse(turns, stack', from', url', next.value, script[1..]);
          t == Trace([v] + rest.visits, rest.end, rest.stack, rest.url)
  {
    TraverseOnce(turns, stack, from, url, err, script);
    if visit.Some? && script != [] && next.Some? {
      TraverseGoesOn(turns, stack, from, url, err, script, visit.value, next.value, stack', url');
    }
  }

  /** A traversal whose remaining part begins with the visit `v` goes on as
      the visits so far, then `v`, then the part after it. */
  lemma TraceExtends(whole: Trace, done: seq<Visit>, t: Trace, v: Visit, rest: Trace)
    requires whole == Trace(done + t.visits, t.end, t.stack, t.url)
    requires t == Trace([v] + rest.visits, rest.end, rest.stack, rest.url)
    ensures whole == Trace((done + [v]) + rest.visits, rest.end, rest.stack, rest.url)
  {
    assert done + ([v] + rest.visits) == (done + [v]) + rest.visits;
  }

  /** The last handler a traversal invoked. */
  function Last(visits: seq<Visit>): Visit
    requires visits != []
  {
    visits[|visits| - 1]
  }

  lemma LastOf(done: seq<Visit>, v: Visit)
    ensures Last(done + [v]) == v
  {
  }

  /** The turns of `app.handle` are `Pick`'s. */
  lemma TurnsOfIsPick(protohost: string, fqdn: nat, stack: seq<Layer>, from: nat, url: string, err: ErrValue)
    ensures TurnsOf(protohost, fqdn)(stack, from, url, err) == Pick(stack, from, url, err, protohost, fqdn)
  {
  }

  /** The stack of a traversal only grows, and every handler invoked is a
      layer of the final stack, recorded with its route and arity and run in
      the mode `call` picks. */
  lemma {:induction false} TraverseGrows(turns: Turns, stack: seq<Layer>, from: nat, url: string, err: ErrValue, script: seq<Behaviour>)
    requires forall stack, from, url, err :: TurnAgrees(stack, from, err, turns(stack, from, url, err))
    ensures var t := Traverse(turns, stack, from, url, err, script);
      stack <= t.stack && forall k :: 0 <= k < |t.visits| ==> Recorded(t.visits[k], t.stack)
    decreases |script|
  {
    var t := Traverse(turns, stack, from, url, err, script);
    var turn := turns(stack, from, url, err);
    TraverseOnce(turns, stack, from, url, err, script);
    assert TurnAgrees(stack, from, err, turn);
    match turn.visit
    case None =>
    case Some(v) =>
      if script == [] {
      } else if Continuation(v.arity, err, script[0]).None? {
        RecordedGrows(v, stack, Registered(stack, script[0]));
      } else {
        var grown := Registered(stack, script[0]);
        var e := Continuation(v.arity, err, script[0]).value;
        var rest := Traverse(turns, grown, v.layer + 1, turn.url, e, script[1..]);
        TraverseGoesOn(turns, stack, from, url, err, script, v, e, grown, turn.url);
        TraverseGrows(turns, grown, v.layer + 1, turn.url, e, script[1..]);
        assert t.visits == [v] + rest.visits && t.stack == rest.stack;
        RecordedGrows(v, stack, rest.stack);
        forall k | 0 < k < |t.visits|
          ensures Recorded(t.visits[k], t.stack)
        {
          assert t.visits[k] == rest.visits[k - 1];
        }
      }
  }

  /** Handlers invoked at or after `from`, each after the one before. */
  predicate Advancing(visits: seq<Visit>, from: nat)
    decreases |visits|
  {
    visits == [] || (from <= visits[0].layer && Advancing(visits[1..], visits[0].layer + 1))
  }

  /** Advancing visits lie at or after `from`, at strictly increasing
      stack positions. */
  lemma {:induction false} AdvancingOrders(visits: seq<Visit>, from: nat)
    requires Advancing(visits, from)
    ensures forall k :: 0 <= k < |visits| ==> from <= visits[k].layer
    ensures forall a, b :: 0 <= a < b < |visits| ==> visits[a].layer < visits[b].layer
    decreases |visits|
  {
    if visits != [] {
      var tail := visits[1..];
      AdvancingOrders(tail, visits[0].layer + 1);
      forall k | 0 < k < |visits|
        ensures visits[0].layer < visits[k].layer
      {
        assert visits[k] == tail[k - 1];
      }
      forall a, b | 0 < a < b < |visits|
        ensures visits[a].layer < visits[b].layer
      {
        assert visits[a] == tail[a - 1] && visits[b] == tail[b - 1];
      }
    }
  }

  /** A traversal moves forward: every handler it invokes lies at or after
      `from`, each one after the one before. */
  lemma {:induction false} TraverseAdvances(turns: Turns, stack: seq<Layer>, from: nat, url: string, err: ErrValue, script: seq<Behaviour>)
    requires forall stack, from, url, err :: TurnAgrees(stack, from, err, turns(stack, from, url, err))
    ensures Advancing(Traverse(turns, stack, from, url, err, script).visits, from)
    decreases |script|
  {
    var t := Traverse(turns, stack, from, url, err, script);
    var turn := turns(stack, from, url, err);
    TraverseOnce(turns, stack, from, url, err, script);
    assert TurnAgrees(stack, from, err, turn);
    match turn.visit
    case None =>
    case Some(v) =>
      if script != [] && Continuation(v.arity, err, script[0]).Some? {
        var grown := Registered(stack, script[0]);
        var e := Continuation(v.arity, err, script[0]).value;
        var rest := Traverse(turns, grown, v.layer + 1, turn.url, e, script[1..]);
        TraverseGoesOn(turns, stack, from, url, err, script, v, e, grown, turn.url);
        TraverseAdvances(turns, grown, v.layer + 1, turn.url, e, script[1..]);
        assert t.visits == [v] + rest.visits && t.visits[1..] == rest.visits;
      } else {
        assert t.visits == [v];
      }
  }

  /** How a traversal that started with pending error `err` ended. `done`
      is scheduled with `err` when no handler was invoked, and otherwise with
      what the last handler passed to `next`; `Stopped` comes right after a
      handler after which nothing calls `next`; `Pending` exactly when every
      behaviour was used and a handler still holds the request. Each
      behaviour serves one turn. */
  predicate EndsAsScripted(t: Trace, err: ErrValue, script: seq<Behaviour>) {
    var n := |t.visits|;
    (t.end.DoneScheduled? && n == 0 ==> t.end.err == err) &&
    (t.end.DoneScheduled? && n > 0 ==>
      n <= |script| && Continuation(t.visits[n - 1].arity, t.visits[n - 1].err, script[n - 1]) == Some(t.end.err)) &&
    (t.end.Stopped? ==>
      0 < n <= |script| && t.end.layer == t.visits[n - 1].layer &&
      Continuation(t.visits[n - 1].arity, t.visits[n - 1].err, script[n - 1]) == None) &&
    (t.end.Pending? ==> n == |script| + 1 && t.end.layer == t.visits[n - 1].layer)
  }

  /** A traversal ends as its behaviours say. */
  lemma {:induction false} TraverseEnds(turns: Turns, stack: seq<Layer>, from: nat, url: string, err: ErrValue, script: seq<Behaviour>)
    requires forall stack, from, url, err :: TurnAgrees(stack, from, err, turns(stack, from, url, err))
    ensures EndsAsScripted(Traverse(turns, stack, from, url, err, script), err, script)
    decreases |script|
  {
    var t := Traverse(turns, stack, from, url, err, script);
    var turn := turns(stack, from, url, err);
    TraverseOnce(turns, stack, from, url, err, script);
    assert TurnAgrees(stack, from, err, turn);
    match turn.visit
    case None =>
    case Some(v) =>
      if script != [] && Continuation(v.arity, err, script[0]).Some? {
        var grown := Registered(stack, script[0]);
        var e := Continuation(v.arity, err, script[0]).value;
        var rest := Traverse(turns, grown, v.layer + 1, turn.url, e, script[1..]);
        TraverseGoesOn(turns, stack, from, url, err, script, v, e, grown, turn.url);
        TraverseEnds(turns, grown, v.layer + 1, turn.url, e, script[1..]);
        EndsAfterVisit(t, rest, v, err, e, script);
      }
  }

  /** A traversal that first invokes `v`, which passes `e` on, ends as
      scripted when the traversal after `v` does. */
  lemma EndsAfterVisit(t: Trace, rest: Trace, v: Visit, err: ErrValue, e: ErrValue, script: seq<Behaviour>)
    requires script != [] && v.err == err && Continuation(v.arity, err, script[0]) == Some(e)
    requires t.visits == [v] + rest.visits && t.end == rest.end
    requires EndsAsScripted(rest, e, script[1..])
    ensures EndsAsScripted(t, err, script)
  {
    var n := |t.visits|;
    if rest.visits == [] {
      assert n == 1 && t.visits[0] == v;
    } else {
      assert t.visits[n - 1] == rest.visits[n - 2];
      if n <= |script| {
        assert script[n - 1] == script[1..][n - 2];
      }
    }
  }

  /** Each handler after the first gets what the one before passed to
      `next`, by its behaviour and `call`. */
  predicate Chained(visits: seq<Visit>, script: seq<Behaviour>)
    decreases |visits|
  {
    |visits| <= 1 ||
    (script != [] && Continuation(visits[0].arity, visits[0].err, script[0]) == Some(visits[1].err) &&
     Chained(visits[1..], script[1..]))
  }

  /** In a chain, handler `a + 1` gets what handler `a` passed to `next`
      under behaviour `a`. */
  lemma {:induction false} ChainedLinks(visits: seq<Visit>, script: seq<Behaviour>, a: nat)
    requires Chained(visits, script) && a + 1 < |visits|
    ensures a < |script| && Continuation(visits[a].arity, visits[a].err, script[a]) == Some(visits[a + 1].err)
    decreases a
  {
    if a > 0 {
      ChainedLinks(visits[1..], script[1..], a - 1);
    }
  }

  /** The errors a traversal passes on: the first handler gets `err`, and
      each later one what the handler before it passed to `next`. */
  lemma {:induction false} TraverseChains(turns: Turns, stack: seq<Layer>, from: nat, url: string, err: ErrValue, script: seq<Behaviour>)
    requires forall stack, from, url, err :: TurnAgrees(stack, from, err, turns(stack, from, url, err))
    ensures var t := Traverse(turns, stack, from, url, err, script);
      (t.visits != [] ==> t.visits[0].err == err) && Chained(t.visits, script)
    decreases |script|
  {
    var t := Traverse(turns, stack, from, url, err, script);
    var turn := turns(stack, from, url, err);
    TraverseOnce(turns, stack, from, url, err, script);
    assert TurnAgrees(stack, from, err, turn);
    match turn.visit
    case None =>
    case Some(v) =>
      if script != [] && Continuation(v.arity, err, script[0]).Some? {
        var grown := Registered(stack, script[0]);
        var e := Continuation(v.arity, err, script[0]).value;
        var rest := Traverse(turns, grown, v.layer + 1, turn.url, e, script[1..]);
        TraverseGoesOn(turns, stack, from, url, err, script, v, e, grown, turn.url);
        TraverseChains(turns, grown, v.layer + 1, turn.url, e, script[1..]);
        assert t.visits == [v] + rest.visits && t.visits[1..] == rest.visits;
      } else {
        assert t.visits == [v];
      }
  }

  /** A visit as the request with URL `url` would have it: the layer's route
      matches the request's path, and the handler sees the URL cut for that
      route, both up to ASCII case. */
  predicate Sees(v: Visit, url: string, protohost: string, fqdn: nat) {
    Matches(Pathname(url, protohost, fqdn), v.route) &&
    Lower(v.url) == Lower(EnteredUrl(url, protohost, v.route, fqdn))
  }

  /** What a visit sees depends on the URL only up to ASCII case. */
  lemma SeesIgnoresCase(v: Visit, url1: string, url2: string, protohost: string, fqdn: nat)
    requires Lower(url1) == Lower(url2) && Sees(v, url1, protohost, fqdn)
    ensures Sees(v, url2, protohost, fqdn)
  {
    PathnameIgnoresCase(url1, url2, protohost, fqdn);
    MatchesIgnoresCase(Pathname(url1, protohost, fqdn), Pathname(url2, protohost, fqdn), v.route);
    EnteredUrlIgnoresCase(url1, url2, protohost, v.route, fqdn);
  }

  /** Every visit in `visits` sees the URL `url`. */
  predicate AllSee(visits: seq<Visit>, url: string, protohost: string, fqdn: nat)
    decreases |visits|
  {
    visits == [] || (Sees(visits[0], url, protohost, fqdn) && AllSee(visits[1..], url, protohost, fqdn))
  }

  /** Visits that all see a URL also see every URL equal to it up to case. */
  lemma {:induction false} AllSeeIgnoresCase(visits: seq<Visit>, url1: string, url2: string, protohost: string, fqdn: nat)
    requires Lower(url1) == Lower(url2) && AllSee(visits, url1, protohost, fqdn)
    ensures AllSee(visits, url2, protohost, fqdn)
    decreases |visits|
  {
    if visits != [] {
      SeesIgnoresCase(visits[0], url1, url2, protohost, fqdn);
      AllSeeIgnoresCase(visits[1..], url1, url2, protohost, fqdn);
    }
  }

  /** A visit that sees `url`, followed by visits that all see a URL equal
      to it up to case: all of them see `url`. */
  lemma AllSeeCons(v: Visit, rest: seq<Visit>, url: string, url': string, protohost: string, fqdn: nat)
    requires Sees(v, url, protohost, fqdn) && Lower(url') == Lower(url) && AllSee(rest, url', protohost, fqdn)
    ensures AllSee([v] + rest, url, protohost, fqdn)
  {
    AllSeeIgnoresCase(rest, url', url, protohost, fqdn);
    assert ([v] + rest)[1..] == rest;
  }

  /** `AllSee` says of each visit that it sees `url`. */
  lemma {:induction false} AllSeeEach(visits: seq<Visit>, url: string, protohost: string, fqdn: nat)
    requires AllSee(visits, url, protohost, fqdn)
    ensures forall k :: 0 <= k < |visits| ==> Sees(visits[k], url, protohost, fqdn)
    decreases |visits|
  {
    if visits != [] {
      AllSeeEach(visits[1..], url, protohost, fqdn);
      forall k | 0 < k < |visits|
        ensures Sees(visits[k], url, protohost, fqdn)
      {
        assert visits[k] == visits[1..][k - 1];
      }
    }
  }

  /** A turn taken from resting URL `url` keeps the URL: the URL at rest
      afterwards keeps `protohost` and equals `url` up to case, and the
      handler invoked, if any, sees `url`. */
  predicate KeepsUrl(turn: Turn, url: string, protohost: string, fqdn: nat) {
    protohost <= turn.url && Lower(turn.url) == Lower(url) &&
    (turn.visit.Some? ==> Sees(turn.visit.value, url, protohost, fqdn))
  }

  /** Every turn of `app.handle` keeps the URL. */
  lemma TurnsOfKeepUrl(protohost: string, fqdn: nat)
    requires fqdn == 0 ==> protohost == ""
    ensures forall stack, from, url, err :: protohost <= url ==>
      KeepsUrl(TurnsOf(protohost, fqdn)(stack, from, url, err), url, protohost, fqdn)
  {
    forall stack, from, url, err | protohost <= url
      ensures KeepsUrl(TurnsOf(protohost, fqdn)(stack, from, url, err), url, protohost, fqdn)
    {
      PickFindsFirst(stack, from, url, err, protohost, fqdn);
    }
  }

  /** The URL across a whole traversal whose turns keep it: it is put back
      before every later layer, so it ends equal to where it started up to
      case and keeps `protohost`; and every handler invoked, however late,
      has a route matching the request's path and sees the cut of the
      request's URL for that route. */
  lemma {:induction false} TraverseKeepsUrl(turns: Turns, protohost: string, fqdn: nat, stack: seq<Layer>, from: nat,
                                            url: string, err: ErrValue, script: seq<Behaviour>)
    requires forall stack, from, url, err :: protohost <= url ==> KeepsUrl(turns(stack, from, url, err), url, protohost, fqdn)
    requires protohost <= url
    ensures var t := Traverse(turns, stack, from, url, err, script);
      protohost <= t.url && Lower(t.url) == Lower(url) && AllSee(t.visits, url, protohost, fqdn)
    decreases |script|
  {
    var t := Traverse(turns, stack, from, url, err, script);
    var turn := turns(stack, from, url, err);
    TraverseOnce(turns, stack, from, url, err, script);
    assert KeepsUrl(turn, url, protohost, fqdn);
    match turn.visit
    case None =>
    case Some(v) =>
      if script != [] && Continuation(v.arity, err, script[0]).Some? {
        var grown := Registered(stack, script[0]);
        var e := Continuation(v.arity, err, script[0]).value;
        var rest := Traverse(turns, grown, v.layer + 1, turn.url, e, script[1..]);
        TraverseGoesOn(turns, stack, from, url, err, script, v, e, grown, turn.url);
        TraverseKeepsUrl(turns, protohost, fqdn, grown, v.layer + 1, turn.url, e, script[1..]);
        AllSeeCons(v, rest.visits, url, turn.url, protohost, fqdn);
      } else {
        AllSeeCons(v, [], url, url, protohost, fqdn);
        assert t.visits == [v] + [];
      }
  }

  /** What a whole traversal of `app.handle` does: the first handler gets no
      error, each later one what the one before passed on, at increasing
      stack positions, and it ends as its behaviours say. */
  lemma HandleTraversal(protohost: string, fqdn: nat, stack: seq<Layer>, url: string, script: seq<Behaviour>)
    ensures var t := Traverse(TurnsOf(protohost, fqdn), stack, 0, url, Undefined, script);
      (t.visits != [] ==> t.visits[0].err == Undefined) && Chained(t.visits, script) &&
      Advancing(t.visits, 0) && EndsAsScripted(t, Undefined, script)
    ensures var t := Traverse(TurnsOf(protohost, fqdn), stack, 0, url, Undefined, script);
      protohost <= url && (fqdn == 0 ==> protohost == "") ==>
        protohost <= t.url && Lower(t.url) == Lower(url) &&
        forall k :: 0 <= k < |t.visits| ==> Sees(t.visits[k], url, protohost, fqdn)
  {
    var turns := TurnsOf(protohost, fqdn);
    TurnsOfAgree(protohost, fqdn);
    TraverseChains(turns, stack, 0, url, Undefined, script);
    TraverseAdvances(turns, stack, 0, url, Undefined, script);
    TraverseEnds(turns, stack, 0, url, Undefined, script);
    if protohost <= url && (fqdn == 0 ==> protohost == "") {
      TurnsOfKeepUrl(protohost, fqdn);
      TraverseKeepsUrl(turns, protohost, fqdn, stack, 0, url, Undefined, script);
      AllSeeEach(Traverse(turns, stack, 0, url, Undefined, script).visits, url, protohost, fqdn);
    }
  }

  /** The traversal state of one `app.handle(req, res, out)` call: the
      variables of lines 98-105 that the `next` closure updates. */
  class Dispatch {
    const app: App
    const req: Request
    const done: Done
    /** Line 101; 0 stands for JavaScript's falsy `false` and `0`. */
    const fqdn: nat
    /** Line 102. */
    const protohost: string
    var index: nat
    var removed: string
    var slashAdded: bool
    /** The errors `done` has been scheduled with (`defer(done, err)`, line 138). */
    var scheduled: seq<ErrValue>

    ghost predicate Valid()
      reads this, req
    {
      (fqdn == 0 ==> protohost == "") &&
      (slashAdded ==> fqdn == 0 && removed != "") &&
      protohost <= req.url
    }

    /** The URL as it will be once the next call of `next` has undone the
        rewrite for the current layer (lines 122-130). */
    ghost function Resting(): string
      reads this, req
    {
      Restore(req.url, protohost, removed, slashAdded)
    }

    /** No rewrite is pending: the URL is as the next layer will see it. */
    ghost predicate AtRest()
      reads this, req
    {
      req.url == Resting() && removed == "" && !slashAdded
    }

    /** The URL is rewritten, from resting URL `url`, for a layer with route
        `route` (lines 159-169): left alone for "" and "/", and otherwise with
        the route recorded in `removed` and cut out of `url`. */
    ghost predicate EnteredFrom(url: string, route: string)
      reads this, req
    {
      if IsRoot(route) then req.url == url && removed == "" && !slashAdded
      else removed == route && (req.url, slashAdded) == Strip(url, protohost, route, fqdn)
    }

    /** The resting URL keeps `protohost` at its front. */
    lemma ValidRestingKeepsProtohost()
      requires Valid()
      ensures protohost <= Resting()
    {
      RestoreKeepsProtohost(req.url, protohost, removed, slashAdded);
    }

    /** Lines 95-114, up to the first `next()`. The original URL is recorded
        only when it is not set yet, so a nested app keeps the outer one. */
    constructor (app: App, req: Request, out: Option<nat>)
      modifies req
      ensures this.app == app && this.req == req
      ensures req.url == old(req.url)
      ensures req.originalUrl == if old(req.originalUrl) != "" then old(req.originalUrl) else old(req.url)
      ensures fqdn == Fqdn(req.url) && protohost == Protohost(req.url, fqdn)
      ensures done == if out.Some? then Out(out.value) else FinalHandler
      ensures index == 0 && removed == "" && !slashAdded && scheduled == []
      ensures Valid()
    {
      this.app := app;
      this.req := req;
      var f := Fqdn(req.url);
      fqdn := f;
      protohost := Protohost(req.url, f);
      done := if out.Some? then Out(out.value) else FinalHandler;
      index := 0;
      removed := "";
      slashAdded := false;
      scheduled := [];
      new;
      if req.originalUrl == "" {
        req.originalUrl := req.url;
      }
    }

    /** Lines 122-130: drop the synthetic '/' and put the removed route back. */
    method RestoreUrl()
      requires Valid()
      modifies this`removed, this`slashAdded, req`url
      ensures Valid()
      ensures req.url == old(Resting()) && removed == "" && !slashAdded
    {
      req.url := Restore(req.url, protohost, removed, slashAdded);
      removed := "";
      slashAdded := false;
    }

    /** Lines 160-169 for a matched route that is not root: record it in
        `removed` and cut it out of the URL after `protohost`, prepending a
        '/' to a URL that is not fully qualified and lost its leading one.
        The next pass of `next` puts the URL back as `Reentered` says. */
    method Cut(route: string)
      requires Valid() && removed == "" && !slashAdded && !IsRoot(route)
      modifies this`removed, this`slashAdded, req`url
      ensures Valid()
      ensures EnteredFrom(old(req.url), route)
      ensures Resting() == Reentered(old(req.url), protohost, route, fqdn)
    {
      var before := req.url;
      var cut := Strip(before, protohost, route, fqdn);
      removed := route;
      req.url, slashAdded := cut.0, cut.1;
      StripShape(before, protohost, route, fqdn);
    }

    /** One pass through `next(err)` (lines 116-169), without the recursive
        call of a skip: restore the URL, take the layer at `index` and advance
        `index`, schedule `done` when there is none, and otherwise check the
        route and cut it out of the URL. The URL the next pass starts from is
        the one `Pass` gives, equal to the old one up to case. */
    method Step(err: ErrValue) returns (s: StepOutcome)
      requires Valid()
      modifies this, req`url
      ensures Valid()
      ensures index == old(index) + 1
      ensures Lower(Resting()) == Lower(old(Resting()))
      ensures s.Exhausted? <==> old(index) >= |app.stack|
      ensures scheduled == if s.Exhausted? then old(scheduled) + [err] else old(scheduled)
      ensures !s.Matched? ==> req.url == old(Resting()) && AtRest()
      ensures s.Skipped? ==> !Matches(Pathname(old(Resting()), protohost, fqdn), app.stack[old(index)].route)
      ensures s.Matched? ==> s.layer == old(index) && Matches(Pathname(old(Resting()), protohost, fqdn), app.stack[s.layer].route)
      ensures s.Matched? ==> EnteredFrom(old(Resting()), app.stack[s.layer].route)
      ensures !s.Exhausted? ==> Resting() == Pass(old(Resting()), protohost, app.stack[old(index)].route, fqdn)
    {
      RestoreUrl();

      var i := index;
      index := index + 1;
      if i >= |app.stack| {
        scheduled := scheduled + [err];
        return Exhausted;
      }
      var layer := app.stack[i];
      PassKeepsUrl(req.url, protohost, layer.route, fqdn);

      var path := Pathname(req.url, protohost, fqdn);
      var route := layer.route;
      if SubstrTo(Lower(path), |route|) != Lower(route) {
        return Skipped;
      }
      if |route| < |path| && path[|route|] != '/' && path[|route|] != '.' {
        return Skipped;
      }
      if |route| != 0 && route != "/" {
        Cut(route);
      }
      s := Matched(i);
    }

    /** How a call `next(err)` that started at layer `from` with resting URL
        `start` has ended, as `o` reports it: `done` was scheduled because no
        layer from `from` on runs, with the URL every layer's pass left; or
        the first layer that runs is invoked in the mode `call` picks, with
        the URL cut for its route from the one the layers before it left. */
    ghost predicate Settled(stack: seq<Layer>, from: nat, start: string, err: ErrValue, o: NextOutcome)
      reads this, req
    {
      match o
      case Finished(e) =>
        e == err && Scan(stack, from, Pathname(start, protohost, fqdn), err).None? &&
        index == |stack| + 1 && AtRest() && req.url == Passed(stack, from, |stack|, start, protohost, fqdn)
      case Invoked(layer, mode) =>
        layer < |stack| && Scan(stack, from, Pathname(start, protohost, fqdn), err) == Some(layer) &&
        index == layer + 1 && mode == Select(Arity(stack[layer].handle), err) && mode != Forwarded &&
        EnteredFrom(Passed(stack, from, layer, start, protohost, fqdn), stack[layer].route) &&
        Resting() == Passed(stack, from, index, start, protohost, fqdn)
    }

    /** One pass through `next(err)` at `index` in a call that started at
        layer `from` with resting URL `start`, together with the hand-back of
        line 212 for a handler `call` does not run: the pass either settles
        the call (`Some`) or leaves it to the next layer, with the URL every
        layer passed so far leaves (`Passed`) and the search for a running
        layer still to come. It is a separate method so that `Next`'s loop
        reasons about one pass through this contract alone. */
    method StepFrom(err: ErrValue, ghost start: string, ghost from: nat) returns (r: Option<NextOutcome>)
      requires Valid() && protohost <= start && from <= index <= |app.stack|
      requires Resting() == Passed(app.stack, from, index, start, protohost, fqdn)
      requires Scan(app.stack, from, Pathname(start, protohost, fqdn), err) == Scan(app.stack, index, Pathname(start, protohost, fqdn), err)
      modifies this, req`url
      ensures Valid() && index == old(index) + 1
      ensures scheduled == if r.Some? && r.value.Finished? then old(scheduled) + [err] else old(scheduled)
      ensures r.Some? ==> Settled(app.stack, from, start, err, r.value)
      ensures r.None? ==> index <= |app.stack| && Resting() == Passed(app.stack, from, index, start, protohost, fqdn)
      ensures r.None? ==>
        Scan(app.stack, from, Pathname(start, protohost, fqdn), err) == Scan(app.stack, index, Pathname(start, protohost, fqdn), err)
    {
      ghost var before, stack := Resting(), app.stack;
      var at := index;
      PassedKeepsUrl(stack, from, at, start, protohost, fqdn);
      var s := Step(err);
      assert app.stack == stack && index == at + 1;
      Settles(s, err, start, from, at, before);
      if s.Exhausted? {
        return Some(Finished(err));
      }
      var mode := Select(Arity(app.stack[at].handle), err);
      if s.Matched? && mode != Forwarded {
        return Some(Invoked(at, mode));
      }
      return None;
    }

    /** What one pass (`Step`) at layer `at` tells about the `next` call it
        belongs to, which started at `from` with resting URL `start` and
        reached that layer with resting URL `before`. */
    lemma Settles(s: StepOutcome, err: ErrValue, start: string, from: nat, at: nat, before: string)
      requires Valid() && protohost <= start && from <= at <= |app.stack| && index == at + 1
      requires before == Passed(app.stack, from, at, start, protohost, fqdn) && Lower(before) == Lower(start)
      requires Scan(app.stack, from, Pathname(start, protohost, fqdn), err) == Scan(app.stack, at, Pathname(start, protohost, fqdn), err)
      requires s.Exhausted? <==> at >= |app.stack|
      requires !s.Matched? ==> req.url == before && AtRest()
      requires s.Skipped? ==> !Matches(Pathname(before, protohost, fqdn), app.stack[at].route)
      requires s.Matched? ==> s.layer == at && Matches(Pathname(before, protohost, fqdn), app.stack[s.layer].route)
      requires s.Matched? ==> EnteredFrom(before, app.stack[s.layer].route)
      requires !s.Exhausted? ==> Resting() == Pass(before, protohost, app.stack[at].route, fqdn)
      ensures s.Exhausted? ==> Settled(app.stack, from, start, err, Finished(err))
      ensures s.Matched? && Select(Arity(app.stack[s.layer].handle), err) != Forwarded ==>
        Settled(app.stack, from, start, err, Invoked(s.layer, Select(Arity(app.stack[s.layer].handle), err)))
      ensures !s.Exhausted? && !(s.Matched? && Select(Arity(app.stack[s.layer].handle), err) != Forwarded) ==>
        index <= |app.stack| && Resting() == Passed(app.stack, from, index, start, protohost, fqdn) &&
        Scan(app.stack, from, Pathname(start, protohost, fqdn), err) == Scan(app.stack, index, Pathname(start, protohost, fqdn), err)
    {
      if !s.Exhausted? {
        var path, seen := Pathname(start, protohost, fqdn), Pathname(before, protohost, fqdn);
        var layer := app.stack[at];
        PathnameIgnoresCase(before, start, protohost, fqdn);
        PassedStep(app.stack, from, at, start, protohost, fqdn);
        ScanAtStep(app.stack, at, path, seen, err);
        if !(s.Matched? && Select(Arity(layer.handle), err) != Forwarded) {
          assert !(Matches(seen, layer.route) && Select(Arity(layer.handle), err) != Forwarded);
          assert Scan(app.stack, at, path, err) == Scan(app.stack, index, path, err);
        }
      }
    }

    /** A call `next(err)` up to the point where control leaves the
        dispatcher: the skips of lines 149 and 156 and the hand-back of a
        handler `call` does not run (line 212) are repeated passes. It ends at
        the first layer from `index` on that runs for `err` on the current
        path, whose handler gets the URL cut for its route from the one the
        layers before it left, or schedules `done` with `err` once. */
    method Next(err: ErrValue) returns (o: NextOutcome)
      requires Valid() && index <= |app.stack|
      modifies this, req`url
      ensures Valid()
      ensures Settled(app.stack, old(index), old(Resting()), err, o)
      ensures scheduled == if o.Finished? then old(scheduled) + [err] else old(scheduled)
    {
      ghost var start := Resting();
      ghost var from := index;
      ghost var stack := app.stack;
      ValidRestingKeepsProtohost();
      PassedStep(stack, from, from, start, protohost, fqdn);
      while true
        invariant Valid() && app.stack == stack
        invariant from <= index <= |stack| && protohost <= start
        invariant Resting() == Passed(stack, from, index, start, protohost, fqdn)
        invariant scheduled == old(scheduled)
        invariant Scan(stack, from, Pathname(start, protohost, fqdn), err) == Scan(stack, index, Pathname(start, protohost, fqdn), err)
        decreases |stack| - index
      {
        var r := StepFrom(err, start, from);
        if r.Some? {
          return r.value;
        }
      }
    }

    /** A settled call of `next` is the turn `Pick` describes: no handler
        when `done` was scheduled, and otherwise the layer invoked, seeing the
        current URL; either way with the current resting URL. */
    lemma SettledIsPick(stack: seq<Layer>, from: nat, start: string, err: ErrValue, o: NextOutcome)
      requires Settled(stack, from, start, err, o)
      ensures Pick(stack, from, start, err, protohost, fqdn) ==
        match o
        case Finished(_) => Turn(None, Resting())
        case Invoked(layer, mode) =>
          Turn(Some(Visit(layer, stack[layer].route, Arity(stack[layer].handle), err, mode, req.url)), Resting())
    {
      var path := Pathname(start, protohost, fqdn);
      match o
      case Finished(_) =>
        assert Scan(stack, from, path, err).None?;
      case Invoked(layer, mode) =>
        assert Scan(stack, from, path, err) == Some(layer);
        var url := Passed(stack, from, layer, start, protohost, fqdn);
        assert req.url == EnteredUrl(url, protohost, stack[layer].route, fqdn);
    }

    /** One turn of the traversal: `next(err)` picks the layer to run, `call`
        (lines 190-213) invokes its handler, and the handler behaves as `b`
        (`None` when no behaviour is given, so the request stays with it).
        The visit and the URL left at rest are the turn `Pick` describes; the
        handler's behaviour decides the stack and the value the traversal
        goes on with. */
    method Serve(err: ErrValue, b: Option<Behaviour>) returns (visit: Option<Visit>, next: Option<ErrValue>)
      requires Valid() && scheduled == [] && index <= |app.stack|
      modifies this, req`url, app
      ensures Valid()
      ensures req.originalUrl == old(req.originalUrl) && app.route == old(app.route)
      ensures Turn(visit, Resting()) == Pick(old(app.stack), old(index), old(Resting()), err, protohost, fqdn)
      ensures visit.None? ==> scheduled == [err] && AtRest() && app.stack == old(app.stack) && next == None
      ensures visit.None? ==> index == |app.stack| + 1
      ensures visit.Some? ==>
        scheduled == [] && index == visit.value.layer + 1 && req.url == visit.value.url &&
        app.stack == (if b.Some? then Registered(old(app.stack), b.value) else old(app.stack)) &&
        next == if b.None? then None else Continuation(visit.value.arity, err, b.value)
    {
      var o := Next(err);
      SettledIsPick(old(app.stack), old(index), old(Resting()), err, o);
      if o.Finished? {
        return None, None;
      }
      var layer := app.stack[o.layer];
      var v := Visit(o.layer, layer.route, Arity(layer.handle), err, o.mode, req.url);
      visit, next := Some(v), None;
      if b.Some? {
        Behave(b.value);
        next := Continuation(v.arity, err, b.value);
      }
    }

    /** What a handler that behaves as `b` does to the app before it returns
        or calls `next`: a handler that registers a layer calls `use` on the
        app (lines 47-86), which appends it to the stack being traversed. */
    method Behave(b: Behaviour)
      modifies app
      ensures app.stack == Registered(old(app.stack), b)
      ensures req.originalUrl == old(req.originalUrl) && app.route == old(app.route)
    {
      if b.UsesThenCallsNext? {
        var _ := app.Use(b.route, Callable(b.f));
      }
    }

    /** One round of `Run`: a call `next(err)` and the turn of the handler
        it invokes, which behaves as the first entry of `script`. Kept apart
        from `Run` so that each proof stays small: what the round does is
        the first step of `Traverse` from the state it starts in. */
    method Play(err: ErrValue, script: seq<Behaviour>, ghost turns: Turns) returns (visit: Option<Visit>, next: Option<ErrValue>)
      requires Valid() && scheduled == [] && index <= |app.stack|
      requires turns(app.stack, index, Resting(), err) == Pick(app.stack, index, Resting(), err, protohost, fqdn)
      modifies this, req`url, app
      ensures Valid()
      ensures req.originalUrl == old(req.originalUrl) && app.route == old(app.route)
      ensures scheduled == if visit.None? then [err] else []
      ensures visit.None? ==> AtRest()
      ensures visit.Some? ==> req.url == visit.value.url
      ensures visit.None? ==> index == |app.stack| + 1
      ensures visit.Some? ==> index == visit.value.layer + 1
      ensures visit.Some? && script != [] && next.Some? ==> index <= |app.stack|
      ensures var t := Traverse(turns, old(app.stack), old(index), old(Resting()), err, script);
        match visit
        case None => t == Trace([], DoneScheduled(err), app.stack, Resting())
        case Some(v) =>
          if script == [] then t == Trace([v], Pending(v.layer), app.stack, Resting())
          else if next.None? then t == Trace([v], Stopped(v.layer), app.stack, Resting())
          else
            var rest := Traverse(turns, app.stack, index, Resting(), next.value, script[1..]);
            t == Trace([v] + rest.visits, rest.end, rest.stack, rest.url)
    {
      ghost var stack, from, url := app.stack, index, Resting();
      var b := if script != [] then Some(script[0]) else None;
      visit, next := Serve(err, b);
      TraverseTurn(turns, stack, from, url, err, script, visit, next, app.stack, index, Resting());
    }

    /** The traversal of one request: the first `next()` (line 176), then,
        each time a handler is invoked, that handler behaves as the next
        entry of `script`. It ends when `done` is scheduled, when a handler
        returns without calling `next`, or, with the request still held by a
        handler, when `script` runs out. Layers a handler registers are
        appended to the same stack and are reached later in this traversal.
        What happens is the `Traverse` of the turns `Pick` describes, so the
        traversal lemmas apply: the first handler gets no error and each
        later one what the one before passed on, at increasing positions. */
    method Run(script: seq<Behaviour>) returns (end: Ending, visits: seq<Visit>)
      requires Valid() && AtRest() && index == 0 && scheduled == []
      modifies this, req`url, app
      ensures Valid()
      ensures req.originalUrl == old(req.originalUrl) && app.route == old(app.route)
      ensures var t := Traverse(TurnsOf(protohost, fqdn), old(app.stack), 0, old(req.url), Undefined, script);
        visits == t.visits && end == t.end && app.stack == t.stack && Resting() == t.url
      ensures scheduled == if end.DoneScheduled? then [end.err] else []
      ensures end.DoneScheduled? ==> AtRest()
      ensures visits != [] ==> visits[0].err == Undefined
      ensures Chained(visits, script) && Advancing(visits, 0)
      ensures EndsAsScripted(Trace(visits, end, app.stack, Resting()), Undefined, script)
      ensures protohost <= Resting() && Lower(Resting()) == Lower(old(req.url))
      ensures forall k :: 0 <= k < |visits| ==> Sees(visits[k], old(req.url), protohost, fqdn)
      ensures end.Stopped? || end.Pending? ==> visits != [] && req.url == Last(visits).url
      ensures end.DoneScheduled? ==> index == |app.stack| + 1
      ensures end.Stopped? || end.Pending? ==> index == Last(visits).layer + 1
    {
      ghost var stack0, url0 := app.stack, req.url;
      end, visits := Drive(script);
      HandleTraversal(protohost, fqdn, stack0, url0, script);
    }

    /** The loop of `Run`: the first `next()` (line 176), then a round
        (`Play`) for each handler invoked, until `done` is scheduled, a
        handler returns without calling `next`, or `script` runs out. What
        it does is the `Traverse` of the turns `Pick` describes; it is kept
        apart from `Run` so that the loop's proof does not carry the
        traversal lemmas. */
    method Drive(script: seq<Behaviour>) returns (end: Ending, visits: seq<Visit>)
      requires Valid() && AtRest() && index == 0 && scheduled == []
      modifies this, req`url, app
      ensures Valid()
      ensures req.originalUrl == old(req.originalUrl) && app.route == old(app.route)
      ensures var t := Traverse(TurnsOf(protohost, fqdn), old(app.stack), 0, old(req.url), Undefined, script);
        visits == t.visits && end == t.end && app.stack == t.stack && Resting() == t.url
      ensures scheduled == if end.DoneScheduled? then [end.err] else []
      ensures end.DoneScheduled? ==> AtRest()
      ensures end.Stopped? || end.Pending? ==> visits != [] && req.url == Last(visits).url
      ensures end.DoneScheduled? ==> index == |app.stack| + 1
      ensures end.Stopped? || end.Pending? ==> index == Last(visits).layer + 1
    {
      ghost var turns := TurnsOf(protohost, fqdn);
      ghost var whole := Traverse(turns, app.stack, 0, req.url, Undefined, script);
      var err := Undefined;
      var k := 0;
      visits := [];
      while true
        invariant Valid()
        invariant k <= |script|
        invariant scheduled == [] && index <= |app.stack|
        invariant app.route == old(app.route)
        invariant visits != [] ==> req.url == Last(visits).url && index == Last(visits).layer + 1
        invariant var rest := Traverse(turns, app.stack, index, Resting(), err, script[k..]);
          whole == Trace(visits + rest.visits, rest.end, rest.stack, rest.url)
        decreases |script| - k
      {
        ghost var done, t := visits, Traverse(turns, app.stack, index, Resting(), err, script[k..]);
        TurnsOfIsPick(protohost, fqdn, app.stack, index, Resting(), err);
        var visit, next := Play(err, script[k..], turns);
        if visit.None? {
          end := DoneScheduled(err);
          assert t == Trace([], end, app.stack, Resting());
          assert visits == done + t.visits;
          break;
        }
        var v := visit.value;
        visits := visits + [v];
        LastOf(done, v);
        if k == |script| {
          end := Pending(v.layer);
          assert t == Trace([v], end, app.stack, Resting());
          break;
        }
        if next.None? {
          end := Stopped(v.layer);
          assert t == Trace([v], end, app.stack, Resting());
          break;
        }
        assert script[k..][1..] == script[k + 1..];
        k := k + 1;
        err := next.value;
        ghost var rest := Traverse(turns, app.stack, index, Resting(), err, script[k..]);
        assert t == Trace([v] + rest.visits, rest.end, rest.stack, rest.url);
        TraceExtends(whole, done, t, v, rest);
      }
      assert whole == Trace(visits, end, app.stack, Resting());
    }
  }
}
