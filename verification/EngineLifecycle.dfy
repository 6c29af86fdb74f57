// The engine's lifecycle under its two locks (singbox-bridge/main.go): start,
// reload with rollback, stop, cancel, and the listener bound to one engine.
//
// A call that does not hold the runtime lock only waits; the one that does is
// `holder`, and its constructor says how far it has got.  Everything a step
// reads or writes belongs to one of the two locks, so the steps of the holder
// interleave with entering calls and cancellations at every point where the
// startup lock can change hands.  What the engine library answers is an input.
module EngineLifecycle {
  import opened Common

  datatype Status = Built | Started | Closed

  /** `generation` is what the call that built the engine had sampled. */
  datatype Engine = Engine(config: string, ctx: nat, generation: nat, status: Status)

  datatype Fields = Fields(instance: Option<nat>, cancel: Option<nat>, config: string, ctx: Option<nat>)
  const NONE: Fields := Fields(None, None, "", None)

  datatype Call = StartCall(generation: nat) | ReloadCall(generation: nat) | StopCall(generation: nat) | ApplyCall

  /** A start or reload under way; `entry` is what it found. */
  datatype Op = Op(reload: bool, generation: nat, ctx: nat, entry: Fields)

  datatype Ending = Untouched | Published | Restored | Nothing

  datatype Holder =
    | Free
    | Entered(call: Call)
    | Opened(op: Op)
    | Made(op: Op, engine: nat)
    | Detached(op: Op, engine: nat)
    | Ready(op: Op, engine: nat)
    | Up(op: Op, engine: nat, ok: bool)
    | Restoring(op: Op)
    | Remade(op: Op, engine: nat)
    | ReUp(op: Op, engine: nat, ok: bool)
    | Finishing(op: Op, ending: Ending)
    | Leaving(op: Op, ending: Ending)
    | Stopping(generation: nat, entry: Fields)
    | Stopped(generation: nat)
    | Binding

  /** `stopped` is the largest generation that a stop which has returned moved to. */
  datatype World = World(
    generation: nat, startup: Option<nat>, contexts: nat, cancelled: set<nat>,
    fields: Fields, engines: seq<Engine>, ingress: Option<nat>,
    waiting: seq<Call>, holder: Holder, stopped: nat)

  const NEW_WORLD: World := World(0, None, 0, {}, NONE, [], None, [], Free, 0)

  datatype Kind = StartKind | ReloadKind | StopKind | ApplyKind

  datatype Step =
    | Enter(kind: Kind)
    | CancelStart
    | Acquire(i: nat)
    | Advance(ok: bool, content: string)

  // ---- steps ----

  function Cancel(w: World): World {
    w.(generation := w.generation + 1,
       cancelled := if w.startup.Some? then w.cancelled + {w.startup.value} else w.cancelled)
  }

  function EnterStep(w: World, kind: Kind): World {
    match kind
    case StartKind => w.(waiting := w.waiting + [StartCall(w.generation)])
    case ReloadKind => w.(waiting := w.waiting + [ReloadCall(w.generation)])
    case StopKind => Cancel(w).(waiting := w.waiting + [StopCall(w.generation + 1)])
    case ApplyKind => w.(waiting := w.waiting + [ApplyCall])
  }

  function AcquireStep(w: World, i: nat): World {
    if w.holder != Free || i >= |w.waiting| then w
    else w.(holder := Entered(w.waiting[i]), waiting := w.waiting[..i] + w.waiting[i + 1..])
  }

  /** The second lock: a call from before a cancellation is turned away. */
  function Open(w: World, reload: bool, generation: nat): World {
    if generation != w.generation then w.(holder := Free)
    else w.(startup := Some(w.contexts), contexts := w.contexts + 1,
            holder := Opened(Op(reload, generation, w.contexts, w.fields)))
  }

  function SetStatus(es: seq<Engine>, e: nat, s: Status): seq<Engine> {
    if e < |es| then es[e := es[e].(status := s)] else es
  }

  /** Building an engine needs a live context and a configuration that decodes; empty text does not. */
  predicate Builds(w: World, op: Op, ok: bool, content: string) {
    ok && content != "" && op.ctx !in w.cancelled
  }

  function Build(w: World, op: Op, content: string): World {
    w.(engines := w.engines + [Engine(content, op.ctx, op.generation, Built)])
  }

  function CloseEngine(w: World, e: nat): World { w.(engines := SetStatus(w.engines, e, Closed)) }

  function CloseFields(w: World, f: Fields): World {
    var w' := w.(cancelled := if f.cancel.Some? then w.cancelled + {f.cancel.value} else w.cancelled);
    if f.instance.Some? then CloseEngine(w', f.instance.value) else w'
  }

  function Publish(w: World, op: Op, e: nat): World {
    w.(fields := Fields(Some(e), Some(op.ctx), if e < |w.engines| then w.engines[e].config else "", Some(op.ctx)))
  }

  function Detach(w: World): World { w.(ingress := None, fields := NONE) }

  function AdvanceStep(w: World, ok: bool, content: string): World {
    match w.holder
    case Free => w
    case Entered(StartCall(g)) => if w.fields.instance.Some? then w.(holder := Free) else Open(w, false, g)
    case Entered(ReloadCall(g)) => Open(w, true, g)
    case Entered(StopCall(g)) => Detach(w).(holder := Stopping(g, w.fields))
    case Entered(ApplyCall) => if ok then w.(ingress := None, holder := Binding) else w.(holder := Free)
    case Opened(op) =>
      if !Builds(w, op, ok, content) then w.(holder := Finishing(op, Untouched))
      else Build(w, op, content).(holder := if op.reload then Made(op, |w.engines|) else Ready(op, |w.engines|))
    case Made(op, e) => Detach(w).(holder := Detached(op, e))
    case Detached(op, e) =>
      var w' := CloseFields(w, op.entry);
      if ok || op.entry.instance.None? then w'.(holder := Ready(op, e))
      else CloseEngine(w', e).(holder := Restoring(op))
    case Ready(op, e) => w.(engines := SetStatus(w.engines, e, Started), holder := Up(op, e, ok))
    case Up(op, e, started) =>
      if started && op.ctx !in w.cancelled then Publish(w, op, e).(holder := Finishing(op, Published))
      else CloseEngine(w, e).(holder := if op.reload then Restoring(op) else Finishing(op, Nothing))
    case Restoring(op) =>
      if !Builds(w, op, ok, op.entry.config) then w.(holder := Finishing(op, Nothing))
      else Build(w, op, op.entry.config).(holder := Remade(op, |w.engines|))
    case Remade(op, e) => w.(engines := SetStatus(w.engines, e, Started), holder := ReUp(op, e, ok))
    case ReUp(op, e, started) =>
      if started && op.ctx !in w.cancelled then Publish(w, op, e).(holder := Finishing(op, Restored))
      else CloseEngine(w, e).(holder := Finishing(op, Nothing))
    case Finishing(op, ending) => w.(startup := None, holder := Leaving(op, ending))
    case Leaving(op, ending) =>
      w.(holder := Free,
         cancelled := if ending.Published? || ending.Restored? then w.cancelled else w.cancelled + {op.ctx})
    case Stopping(g, entry) => CloseFields(w, entry).(holder := Stopped(g))
    case Stopped(g) => w.(holder := Free, stopped := if g > w.stopped then g else w.stopped)
    case Binding => w.(ingress := if ok then w.fields.instance else None, holder := Free)
  }

  function Next(w: World, s: Step): World {
    match s
    case Enter(kind) => EnterStep(w, kind)
    case CancelStart => Cancel(w)
    case Acquire(i) => AcquireStep(w, i)
    case Advance(ok, content) => AdvanceStep(w, ok, content)
  }

  // ---- the invariant ----

  predicate StatusIs(w: World, e: nat, s: Status) { e < |w.engines| && w.engines[e].status == s }

  /** The four fields are all set, for one started engine, or all unset. */
  predicate Coherent(w: World, f: Fields) {
    f == NONE ||
    (&& f.instance.Some? && StatusIs(w, f.instance.value, Started)
     && var e := w.engines[f.instance.value];
        f.config == e.config != "" && f.ctx == Some(e.ctx) && f.cancel == Some(e.ctx) && e.generation >= w.stopped)
  }

  /** No engine is started, other than possibly one. */
  predicate OnlyStarted(w: World, only: Option<nat>) {
    forall e :: 0 <= e < |w.engines| && w.engines[e].status == Started ==> only == Some(e)
  }

  predicate OpOk(w: World, op: Op) {
    w.stopped <= op.generation <= w.generation && (!op.reload ==> op.entry == NONE)
  }

  predicate CallOk(w: World, c: Call) { c.ApplyCall? || c.generation <= w.generation }

  /** A new engine of this operation. */
  predicate Fresh(w: World, op: Op, e: nat) {
    e < |w.engines| && w.engines[e].ctx == op.ctx && w.engines[e].generation == op.generation
        && w.engines[e].config != ""
  }

  predicate EndingOk(w: World, op: Op, ending: Ending) {
    match ending
    case Untouched => w.fields == op.entry
    case Published => w.fields.instance.Some? && Fresh(w, op, w.fields.instance.value)
    case Restored => op.reload && w.fields.instance.Some? && Fresh(w, op, w.fields.instance.value)
        && w.fields.config == op.entry.config
    case Nothing => w.fields == NONE
  }

  predicate HolderOk(w: World) {
    match w.holder
    case Free => Coherent(w, w.fields) && OnlyStarted(w, w.fields.instance)
    case Entered(c) => Coherent(w, w.fields) && OnlyStarted(w, w.fields.instance) && CallOk(w, c)
    case Binding => Coherent(w, w.fields) && OnlyStarted(w, w.fields.instance)
    case Opened(op) => OpOk(w, op) && Coherent(w, w.fields) && w.fields == op.entry && OnlyStarted(w, w.fields.instance)
    case Made(op, e) =>
      && OpOk(w, op) && op.reload && Coherent(w, w.fields) && w.fields == op.entry && OnlyStarted(w, w.fields.instance)
      && Fresh(w, op, e) && StatusIs(w, e, Built)
    case Detached(op, e) =>
      && OpOk(w, op) && op.reload && w.fields == NONE && Coherent(w, op.entry) && OnlyStarted(w, op.entry.instance)
      && Fresh(w, op, e) && StatusIs(w, e, Built)
    case Ready(op, e) => OpOk(w, op) && w.fields == NONE && OnlyStarted(w, None) && Fresh(w, op, e)
        && StatusIs(w, e, Built)
    case Up(op, e, _) => OpOk(w, op) && w.fields == NONE && OnlyStarted(w, Some(e)) && Fresh(w, op, e)
        && StatusIs(w, e, Started)
    case Restoring(op) => OpOk(w, op) && op.reload && w.fields == NONE && OnlyStarted(w, None)
    case Remade(op, e) =>
      && OpOk(w, op) && op.reload && w.fields == NONE && OnlyStarted(w, None) && Fresh(w, op, e)
      && StatusIs(w, e, Built)
      && w.engines[e].config == op.entry.config
    case ReUp(op, e, _) =>
      && OpOk(w, op) && op.reload && w.fields == NONE && OnlyStarted(w, Some(e)) && Fresh(w, op, e)
      && StatusIs(w, e, Started)
      && w.engines[e].config == op.entry.config
    case Finishing(op, ending) =>
      OpOk(w, op) && Coherent(w, w.fields) && OnlyStarted(w, w.fields.instance) && EndingOk(w, op, ending)
    case Leaving(op, ending) =>
      OpOk(w, op) && Coherent(w, w.fields) && OnlyStarted(w, w.fields.instance) && EndingOk(w, op, ending)
    case Stopping(g, entry) => g <= w.generation && w.fields == NONE && Coherent(w, entry)
        && OnlyStarted(w, entry.instance)
    case Stopped(g) => g <= w.generation && w.fields == NONE && OnlyStarted(w, None)
  }

  predicate WaitingOk(w: World) {
    w.stopped <= w.generation && forall i :: 0 <= i < |w.waiting| ==> CallOk(w, w.waiting[i])
  }

  /** A published listener is bound to the published engine. */
  predicate IngressOk(w: World) { w.ingress.Some? ==> w.ingress == w.fields.instance }

  predicate Inv(w: World) { WaitingOk(w) && HolderOk(w) && IngressOk(w) }

  lemma {:induction false} NewWorldInv()
    ensures Inv(NEW_WORLD)
  {
  }

  // ---- calls that do not hold the lock ----

  lemma {:induction false} HolderUndisturbed(w: World, w': World)
    requires HolderOk(w)
    requires w'.fields == w.fields && w'.engines == w.engines && w'.holder == w.holder && w'.stopped == w.stopped
    requires w.generation <= w'.generation
    ensures HolderOk(w')
  {
    assert forall op :: OpOk(w, op) ==> OpOk(w', op);
    assert forall f :: Coherent(w, f) ==> Coherent(w', f);
    assert forall o :: OnlyStarted(w, o) ==> OnlyStarted(w', o);
    assert forall op, e :: Fresh(w, op, e) ==> Fresh(w', op, e);
    hide OpOk, Coherent, OnlyStarted, Fresh;
  }

  lemma {:induction false} EnterInv(w: World, s: Step)
    requires Inv(w) && (s.Enter? || s.CancelStart?)
    ensures Inv(Next(w, s))
  {
    hide HolderOk;
    HolderUndisturbed(w, Next(w, s));
  }

  lemma {:induction false} AcquireInv(w: World, i: nat)
    requires Inv(w)
    ensures Inv(AcquireStep(w, i))
  {
    var w' := AcquireStep(w, i);
    if w.holder == Free && i < |w.waiting| {
      assert CallOk(w, w.waiting[i]);
      assert Coherent(w', w'.fields) && OnlyStarted(w', w'.fields.instance);
    }
  }

  // ---- the holder's steps ----

  lemma {:induction false} StartOne(w: World, w': World, e: nat)
    requires OnlyStarted(w, None) && e < |w.engines| && w'.engines == SetStatus(w.engines, e, Started)
    ensures OnlyStarted(w', Some(e)) && StatusIs(w', e, Started)
  {
  }

  lemma {:induction false} CloseOne(w: World, w': World, e: nat)
    requires OnlyStarted(w, Some(e)) && w'.engines == SetStatus(w.engines, e, Closed)
    ensures OnlyStarted(w', None)
  {
  }

  lemma {:induction false} BuildOne(w: World, w': World, op: Op, content: string)
    requires w'.engines == Build(w, op, content).engines && w'.stopped == w.stopped && content != ""
    ensures forall o :: OnlyStarted(w, o) ==> OnlyStarted(w', o)
    ensures forall f :: Coherent(w, f) ==> Coherent(w', f)
    ensures Fresh(w', op, |w.engines|) && StatusIs(w', |w.engines|, Built)
  {
  }

  lemma {:induction false} EnteredInv(w: World, ok: bool, content: string)
    requires Inv(w) && w.holder.Entered?
    ensures Inv(AdvanceStep(w, ok, content))
  {
    hide HolderOk, WaitingOk, IngressOk, AdvanceStep;
    if w.holder.call.StartCall? || w.holder.call.ReloadCall? {
      OpenInv(w, ok, content);
    } else {
      DetachInv(w, ok, content);
    }
  }

  lemma {:induction false} OpenInv(w: World, ok: bool, content: string)
    requires Inv(w) && w.holder.Entered? && (w.holder.call.StartCall? || w.holder.call.ReloadCall?)
    ensures Inv(AdvanceStep(w, ok, content))
  {
    var w' := AdvanceStep(w, ok, content);
    assert Coherent(w', w'.fields) && OnlyStarted(w', w'.fields.instance);
    hide Coherent, OnlyStarted;
  }

  lemma {:induction false} DetachInv(w: World, ok: bool, content: string)
    requires Inv(w) && w.holder.Entered? && (w.holder.call.StopCall? || w.holder.call.ApplyCall?)
    ensures Inv(AdvanceStep(w, ok, content))
  {
    var w' := AdvanceStep(w, ok, content);
    assert Coherent(w', w.fields) && OnlyStarted(w', w.fields.instance);
    hide Coherent, OnlyStarted;
  }

  lemma {:induction false} OpenedInv(w: World, ok: bool, content: string)
    requires Inv(w) && (w.holder.Opened? || w.holder.Restoring?)
    ensures Inv(AdvanceStep(w, ok, content))
  {
    var w' := AdvanceStep(w, ok, content);
    var op := w.holder.op;
    var text := if w.holder.Opened? then content else op.entry.config;
    if Builds(w, op, ok, text) {
      BuildOne(w, w', op, text);
    }
    assert OpOk(w', op);
    hide OnlyStarted;
  }

  lemma {:induction false} MadeInv(w: World, ok: bool, content: string)
    requires Inv(w) && w.holder.Made?
    ensures Inv(AdvanceStep(w, ok, content))
  {
  }

  lemma {:induction false} DetachedInv(w: World, ok: bool, content: string)
    requires Inv(w) && w.holder.Detached?
    ensures Inv(AdvanceStep(w, ok, content))
  {
    var w' := AdvanceStep(w, ok, content);
    var op, e := w.holder.op, w.holder.engine;
    var v := CloseFields(w, op.entry);
    if op.entry.instance.Some? {
      CloseOne(w, v, op.entry.instance.value);
    }
    assert OnlyStarted(v, None) && OnlyStarted(w', None);
    assert Fresh(v, op, e) && StatusIs(v, e, Built);
    hide OnlyStarted, Fresh;
  }

  lemma {:induction false} ReadyInv(w: World, ok: bool, content: string)
    requires Inv(w) && (w.holder.Ready? || w.holder.Remade?)
    ensures Inv(AdvanceStep(w, ok, content))
  {
    var w' := AdvanceStep(w, ok, content);
    StartOne(w, w', w.holder.engine);
    hide OnlyStarted;
  }

  lemma {:induction false} UpInv(w: World, ok: bool, content: string)
    requires Inv(w) && (w.holder.Up? || w.holder.ReUp?)
    ensures Inv(AdvanceStep(w, ok, content))
  {
    var w' := AdvanceStep(w, ok, content);
    var op, e := w.holder.op, w.holder.engine;
    if w.holder.ok && op.ctx !in w.cancelled {
      assert OnlyStarted(w', Some(e)) && Coherent(w', w'.fields) && Fresh(w', op, e);
      hide OnlyStarted, Coherent, Fresh;
    } else {
      CloseOne(w, w', e);
      hide OnlyStarted;
    }
  }

  lemma {:induction false} FinishingInv(w: World, ok: bool, content: string)
    requires Inv(w) && (w.holder.Finishing? || w.holder.Leaving?)
    ensures Inv(AdvanceStep(w, ok, content))
  {
    var w' := AdvanceStep(w, ok, content);
    assert Coherent(w', w'.fields) && OnlyStarted(w', w'.fields.instance) && OpOk(w', w.holder.op);
    hide OnlyStarted, Coherent;
  }

  lemma {:induction false} StoppingInv(w: World, ok: bool, content: string)
    requires Inv(w) && (w.holder.Stopping? || w.holder.Stopped?)
    ensures Inv(AdvanceStep(w, ok, content))
  {
    var w' := AdvanceStep(w, ok, content);
    if w.holder.Stopping? {
      if w.holder.entry.instance.Some? {
        CloseOne(w, w', w.holder.entry.instance.value);
      }
    }
    assert OnlyStarted(w', None);
    hide OnlyStarted;
  }

  lemma {:induction false} AdvanceInv(w: World, ok: bool, content: string)
    requires Inv(w)
    ensures Inv(AdvanceStep(w, ok, content))
  {
    hide HolderOk, WaitingOk, IngressOk, AdvanceStep;
    match w.holder
    case Entered(_) => EnteredInv(w, ok, content);
    case Opened(_) => OpenedInv(w, ok, content);
    case Restoring(_) => OpenedInv(w, ok, content);
    case Made(_, _) => MadeInv(w, ok, content);
    case Detached(_, _) => DetachedInv(w, ok, content);
    case Ready(_, _) => ReadyInv(w, ok, content);
    case Remade(_, _) => ReadyInv(w, ok, content);
    case Up(_, _, _) => UpInv(w, ok, content);
    case ReUp(_, _, _) => UpInv(w, ok, content);
    case Finishing(_, _) => FinishingInv(w, ok, content);
    case Leaving(_, _) => FinishingInv(w, ok, content);
    case Stopping(_, _) => StoppingInv(w, ok, content);
    case Stopped(_) => StoppingInv(w, ok, content);
    case Free => IdleInv(w, ok, content);
    case Binding => IdleInv(w, ok, content);
  }

  lemma {:induction false} IdleInv(w: World, ok: bool, content: string)
    requires Inv(w) && (w.holder.Free? || w.holder.Binding?)
    ensures Inv(AdvanceStep(w, ok, content))
  {
    var w' := AdvanceStep(w, ok, content);
    assert Coherent(w', w'.fields) && OnlyStarted(w', w'.fields.instance);
    hide OnlyStarted, Coherent;
  }

  lemma {:induction false} NextInv(w: World, s: Step)
    requires Inv(w)
    ensures Inv(Next(w, s))
  {
    hide Inv, AdvanceStep, AcquireStep, EnterStep;
    match s
    case Advance(ok, content) => AdvanceInv(w, ok, content);
    case Acquire(i) => AcquireInv(w, i);
    case _ => EnterInv(w, s);
  }
}
