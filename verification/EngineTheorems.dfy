// What the engine's lifecycle promises over every run.
module EngineTheorems {
  import opened Common
  import opened EngineLifecycle

  predicate IsRun(ws: seq<World>, steps: seq<Step>) {
    && |ws| == |steps| + 1 && ws[0] == NEW_WORLD
    && forall i :: 0 <= i < |steps| ==> ws[i + 1] == Next(ws[i], steps[i])
  }

  lemma {:induction false} RunInv(ws: seq<World>, steps: seq<Step>, i: nat)
    requires IsRun(ws, steps) && i < |ws|
    ensures Inv(ws[i])
  {
    hide Inv, Next;
    if i == 0 {
      NewWorldInv();
    } else {
      RunInv(ws, steps, i - 1);
      assert ws[i - 1 + 1] == Next(ws[i - 1], steps[i - 1]);
      NextInv(ws[i - 1], steps[i - 1]);
    }
  }

  // ---- stop wins ----

  /** Step k is the return of a stop that had moved to this generation. */
  predicate StopReturns(ws: seq<World>, steps: seq<Step>, k: nat, generation: nat) {
    k < |steps| < |ws| && steps[k].Advance? && ws[k].holder == Stopped(generation)
  }

  lemma {:induction false} StopsAddUp(ws: seq<World>, steps: seq<Step>, i: nat, j: nat)
    requires IsRun(ws, steps) && i <= j < |ws|
    ensures ws[i].stopped <= ws[j].stopped && ws[i].generation <= ws[j].generation
    decreases j
  {
    if i >= j {
    } else {
      StopsAddUp(ws, steps, i, j - 1);
      assert ws[j - 1 + 1] == Next(ws[j - 1], steps[j - 1]);
      hide IsRun;
    }
  }

  /**
   * Once a stop has returned, whatever engine is published was built by a call
   * that sampled its generation after that stop's increment.
   */
  lemma {:induction false} StopWins(ws: seq<World>, steps: seq<Step>, k: nat, j: nat, generation: nat)
    requires IsRun(ws, steps) && StopReturns(ws, steps, k, generation) && k < j < |ws|
    requires ws[j].fields.instance.Some?
    ensures ws[j].fields.instance.value < |ws[j].engines|
    ensures generation <= ws[j].engines[ws[j].fields.instance.value].generation
  {
    assert ws[k + 1] == Next(ws[k], steps[k]);
    assert generation <= ws[k + 1].stopped;
    StopsAddUp(ws, steps, k + 1, j);
    RunInv(ws, steps, j);
    hide IsRun, OnlyStarted, WaitingOk;
  }

  /** A stop itself moves to a generation that no earlier call can have sampled. */
  lemma {:induction false} StopIsNew(ws: seq<World>, steps: seq<Step>, k: nat, i: nat)
    requires IsRun(ws, steps) && k < |steps| && steps[k] == Enter(StopKind) && i < |ws[k].waiting|
    requires !ws[k].waiting[i].ApplyCall?
    ensures ws[k].waiting[i].generation < ws[k + 1].generation
  {
    RunInv(ws, steps, k);
    assert ws[k + 1] == Next(ws[k], steps[k]);
    assert CallOk(ws[k], ws[k].waiting[i]);
  }

  // ---- one engine ----

  lemma {:induction false} AtMostOneStarted(ws: seq<World>, steps: seq<Step>, i: nat, d: nat, e: nat)
    requires IsRun(ws, steps) && i < |ws| && d < |ws[i].engines| && e < |ws[i].engines|
    requires ws[i].engines[d].status == Started && ws[i].engines[e].status == Started
    ensures d == e
  {
    RunInv(ws, steps, i);
    hide IsRun, WaitingOk, Coherent, Fresh, EndingOk, OpOk;
  }

  /** The four fields are set together, for the one started engine and its configuration, or not at all. */
  lemma {:induction false} FieldsTogether(ws: seq<World>, steps: seq<Step>, i: nat)
    requires IsRun(ws, steps) && i < |ws|
    ensures var w, f := ws[i], ws[i].fields;
            f == NONE ||
            (&& f.instance.Some? && StatusIs(w, f.instance.value, Started)
             && f.config == w.engines[f.instance.value].config != ""
             && f.ctx == f.cancel == Some(w.engines[f.instance.value].ctx))
    ensures ws[i].ingress.Some? ==> ws[i].ingress == ws[i].fields.instance
    ensures ws[i].holder == Free && ws[i].fields == NONE ==>
              forall e :: 0 <= e < |ws[i].engines| ==> ws[i].engines[e].status != Started
  {
    RunInv(ws, steps, i);
    hide IsRun, WaitingOk, Fresh, EndingOk, OpOk;
  }

  // ---- a whole reload ----

  /** Engines from before are as they were, except the published one if it was closed. */
  predicate Grown(w0: World, w: World, closed: bool) {
    && |w0.engines| <= |w.engines|
    && forall e :: 0 <= e < |w0.engines| ==>
         w.engines[e] == if closed && w0.fields.instance == Some(e) then w0.engines[e].(status := Closed)
             else w0.engines[e]
  }

  predicate Continues(w0: World, generation: nat, op: Op) {
    op.reload && op.generation == generation && op.entry == w0.fields
  }

  /** The candidate was built and then closed. */
  predicate GivenUp(w0: World, w: World) { |w0.engines| < |w.engines| && w.engines[|w0.engines|].status == Closed }

  predicate Ended(w0: World, w: World, ending: Ending) {
    if ending == Untouched then w.engines == w0.engines && w.fields == w0.fields
    else
      && Grown(w0, w, true) && |w0.engines| < |w.engines|
      && (ending == Published ==> w.fields.instance == Some(|w0.engines|))
      && (ending == Restored ==>
            GivenUp(w0, w) && w.fields.instance == Some(|w0.engines| + 1) && w.fields.config == w0.fields.config)
      && (ending == Nothing ==> GivenUp(w0, w) && w.fields == NONE)
  }

  /** The reload that found w0 has got as far as w. */
  predicate UnderWay(w0: World, generation: nat, w: World) {
    match w.holder
    case Entered(c) => c == ReloadCall(generation) && w.fields == w0.fields && w.engines == w0.engines
    case Opened(op) => Continues(w0, generation, op) && w.engines == w0.engines
    case Made(op, e) => Continues(w0, generation, op) && Grown(w0, w, false) && e == |w0.engines| == |w.engines| - 1
    case Detached(op, e) => Continues(w0, generation, op) && Grown(w0, w, false) && e == |w0.engines| == |w.engines| - 1
    case Ready(op, e) => Continues(w0, generation, op) && Grown(w0, w, true) && e == |w0.engines| == |w.engines| - 1
    case Up(op, e, _) => Continues(w0, generation, op) && Grown(w0, w, true) && e == |w0.engines| == |w.engines| - 1
    case Restoring(op) => Continues(w0, generation, op) && Grown(w0, w, true) && GivenUp(w0, w)
        && |w0.engines| == |w.engines| - 1
    case Remade(op, e) => Continues(w0, generation, op) && Grown(w0, w, true) && GivenUp(w0, w)
        && e == |w0.engines| + 1 == |w.engines| - 1
    case ReUp(op, e, _) => Continues(w0, generation, op) && Grown(w0, w, true) && GivenUp(w0, w)
        && e == |w0.engines| + 1 == |w.engines| - 1
    case Finishing(op, ending) => Continues(w0, generation, op) && Ended(w0, w, ending)
    case Leaving(op, ending) => Continues(w0, generation, op) && Ended(w0, w, ending)
    case _ => false
  }

  lemma {:induction false} StillUnderWay(w0: World, generation: nat, w: World, s: Step)
    requires Inv(w) && UnderWay(w0, generation, w) && w.holder != Free
    requires w0.fields.instance.Some? ==> w0.fields.instance.value < |w0.engines|
    ensures var w' := Next(w, s);
            if w'.holder != Free then UnderWay(w0, generation, w')
            else exists ending :: Ended(w0, w', ending)
  {
    hide Inv, UnderWay, Ended, AdvanceStep;
    if s.Advance? {
      if w.holder.Entered? || w.holder.Opened? || w.holder.Made? || w.holder.Detached? {
        EarlyUnderWay(w0, generation, w, s.ok, s.content);
      } else {
        LateUnderWay(w0, generation, w, s.ok, s.content);
      }
    } else {
      Undisturbed(w0, generation, w, Next(w, s));
    }
  }

  lemma {:induction false} Undisturbed(w0: World, generation: nat, w: World, w': World)
    requires UnderWay(w0, generation, w)
    requires w'.holder == w.holder && w'.fields == w.fields && w'.engines == w.engines
    ensures UnderWay(w0, generation, w')
  {
    assert forall c :: Grown(w0, w, c) ==> Grown(w0, w', c);
    hide Grown;
  }

  lemma {:induction false} EarlyUnderWay(w0: World, generation: nat, w: World, ok: bool, content: string)
    requires Inv(w) && UnderWay(w0, generation, w)
    requires w.holder.Entered? || w.holder.Opened? || w.holder.Made? || w.holder.Detached?
    requires w0.fields.instance.Some? ==> w0.fields.instance.value < |w0.engines|
    ensures var w' := AdvanceStep(w, ok, content);
            if w'.holder != Free then UnderWay(w0, generation, w') else Ended(w0, w', Untouched)
  {
    hide WaitingOk, IngressOk, OnlyStarted;
  }

  lemma {:induction false} LateUnderWay(w0: World, generation: nat, w: World, ok: bool, content: string)
    requires Inv(w) && UnderWay(w0, generation, w)
    requires !(w.holder.Entered? || w.holder.Opened? || w.holder.Made? || w.holder.Detached?)
    requires w0.fields.instance.Some? ==> w0.fields.instance.value < |w0.engines|
    ensures var w' := AdvanceStep(w, ok, content);
            if w'.holder != Free then UnderWay(w0, generation, w')
            else exists ending :: Ended(w0, w', ending)
  {
    hide WaitingOk, IngressOk, OnlyStarted, Coherent;
    var w' := AdvanceStep(w, ok, content);
    match w.holder
    case Leaving(_, ending) => assert Ended(w0, w', ending);
    case _ =>
  }

  lemma {:induction false} ReloadEnds(ws: seq<World>, steps: seq<Step>, i: nat, j: nat, generation: nat)
    requires IsRun(ws, steps) && i < j < |ws| && ws[i].holder == Entered(ReloadCall(generation))
    requires forall k :: i < k < j ==> ws[k].holder != Free
    ensures if ws[j].holder != Free then UnderWay(ws[i], generation, ws[j])
            else exists ending :: Ended(ws[i], ws[j], ending)
    decreases j
  {
    hide Inv, Next, UnderWay, Ended;
    RunInv(ws, steps, i);
    RunInv(ws, steps, j - 1);
    Found(ws[i], generation);
    if j == i + 1 {
    } else {
      ReloadEnds(ws, steps, i, j - 1, generation);
    }
    assert ws[j - 1 + 1] == Next(ws[j - 1], steps[j - 1]);
    StillUnderWay(ws[i], generation, ws[j - 1], steps[j - 1]);
  }

  lemma {:induction false} Found(w: World, generation: nat)
    requires Inv(w) && w.holder == Entered(ReloadCall(generation))
    ensures UnderWay(w, generation, w)
    ensures w.fields.instance.Some? ==> w.fields.instance.value < |w.engines|
  {
  }

  /**
   * What a reload leaves when it lets go of the lock: everything untouched if
   * no candidate was built; else the candidate, or an engine rebuilt from the
   * previous configuration, or nothing, with the previous engine closed.
   */
  lemma {:induction false} ReloadOutcome(ws: seq<World>, steps: seq<Step>, i: nat, j: nat, generation: nat)
    requires IsRun(ws, steps) && i < j < |ws| && ws[i].holder == Entered(ReloadCall(generation))
    requires forall k :: i < k < j ==> ws[k].holder != Free
    requires ws[j].holder == Free
    ensures var old', new', n := ws[i], ws[j], |ws[i].engines|;
            if |new'.engines| == n then new'.fields == old'.fields && new'.engines == old'.engines
            else
              && n < |new'.engines| && (old'.fields.instance.Some? && old'.fields.instance.value < n ==>
                                          new'.engines[old'.fields.instance.value].status == Closed)
              && (|| new'.fields.instance == Some(n)
                  || (new'.engines[n].status == Closed && new'.fields.instance == Some(n + 1)
                        && new'.fields.config == old'.fields.config)
                  || (new'.engines[n].status == Closed && new'.fields == NONE))
  {
    hide IsRun, Inv;
    ReloadEnds(ws, steps, i, j, generation);
    var ending :| Ended(ws[i], ws[j], ending);
  }

  // ---- the lock-held bodies, one call at a time ----

  /** What the engine library and a concurrent canceller answer during one call. */
  datatype Answers = Answers(content: string, builds: bool, closes: bool, starts: bool, cutStart: bool,
                             rebuilds: bool, restarts: bool, cutRestart: bool)

  class Runtime {
    var generation: nat
    var startup: Option<nat>
    var contexts: nat
    var cancelled: set<nat>
    var instance: Option<nat>
    var cancel: Option<nat>
    var config: string
    var ctx: Option<nat>
    var engines: seq<Engine>
    var ingress: Option<nat>

    function Published(): Fields
      reads this
    {
      Fields(instance, cancel, config, ctx)
    }

    /** The fields agree with each other and with the one started engine, whose context is an earlier one. */
    predicate Sound(bound: nat)
      reads this
    {
      && (forall c :: c in cancelled ==> c < bound)
      && (forall e :: 0 <= e < |engines| && engines[e].status == Started ==> instance == Some(e))
      && (Published() == NONE ||
          (&& instance.Some? && instance.value < |engines| && engines[instance.value].status == Started
           && config == engines[instance.value].config != "" && ctx == cancel == Some(engines[instance.value].ctx)
           && engines[instance.value].ctx < bound))
      && (ingress.Some? ==> ingress == instance)
    }

    predicate Valid()
      reads this
    {
      startup == None && Sound(contexts)
    }

    constructor ()
      ensures Valid() && Published() == NONE
    {
      generation, startup, contexts, cancelled := 0, None, 0, {};
      instance, cancel, config, ctx := None, None, "", None;
      engines, ingress := [], None;
    }

    method CancelStartup()
      modifies `generation, `cancelled
      ensures generation == old(generation) + 1
      ensures cancelled == if startup.Some? then old(cancelled) + {startup.value} else old(cancelled)
    {
      generation := generation + 1;
      if startup.Some? {
        cancelled := cancelled + {startup.value};
      }
    }

    method BeginStartup(sampled: nat) returns (context: Option<nat>)
      modifies `startup, `contexts
      ensures context == if sampled == generation then Some(old(contexts)) else None
      ensures startup == if sampled == generation then context else old(startup)
      ensures contexts == old(contexts) + if sampled == generation then 1 else 0
    {
      if sampled != generation {
        return None;
      }
      context := Some(contexts);
      startup := context;
      contexts := contexts + 1;
    }

    method SetAll(i: Option<nat>, c: Option<nat>, text: string)
      modifies `instance, `cancel, `config, `ctx
      ensures Published() == Fields(i, c, text, c)
    {
      instance, cancel, config, ctx := i, c, text, c;
    }

    method FinishStartup(context: nat, keep: bool)
      modifies `startup, `cancelled
      ensures startup == None && cancelled == if keep then old(cancelled) else old(cancelled) + {context}
    {
      startup := None;
      if !keep {
        cancelled := cancelled + {context};
      }
    }

    /** Builds and starts one engine, to be published or closed again. */
    method TryEngine(context: nat, sampled: nat, content: string, starts: bool, cut: bool) returns (ok: bool)
      requires startup == Some(context)
      modifies `engines, `generation, `cancelled
      ensures ok == (starts && context !in old(cancelled) && !cut)
      ensures engines == old(engines) + [Engine(content, context, sampled, if ok then Started else Closed)]
      ensures cancelled == old(cancelled) + if cut then {context} else {}
    {
      engines := engines + [Engine(content, context, sampled, Started)];
      if cut {
        CancelStartup();
      }
      ok := starts && context !in cancelled;
      if !ok {
        engines := engines[|engines| - 1 := engines[|engines| - 1].(status := Closed)];
      }
    }

    method StopRuntime()
      requires Valid()
      modifies this
      ensures Valid() && Published() == NONE && ingress == None && generation == old(generation) + 1
      ensures forall e :: 0 <= e < |engines| ==> engines[e].status != Started
    {
      CancelStartup();
      CloseCurrent();
    }

    /** The listener goes first, then the fields, then the engine. */
    method CloseCurrent()
      requires forall e :: 0 <= e < |engines| && engines[e].status == Started ==> instance == Some(e)
      requires instance.Some? ==> instance.value < |engines|
      modifies `instance, `cancel, `config, `ctx, `ingress, `engines, `cancelled
      ensures Published() == NONE && ingress == None && |engines| == |old(engines)|
      ensures forall e :: 0 <= e < |engines| ==>
                engines[e] == if old(instance) == Some(e) then old(engines[e]).(status := Closed) else old(engines[e])
      ensures cancelled == if old(cancel).Some? then old(cancelled) + {old(cancel).value} else old(cancelled)
    {
      var i, c := instance, cancel;
      ingress := None;
      SetAll(None, None, "");
      if c.Some? {
        cancelled := cancelled + {c.value};
      }
      if i.Some? {
        engines := engines[i.value := engines[i.value].(status := Closed)];
      }
    }

    method StartRuntime(sampled: nat, a: Answers) returns (ok: bool)
      requires Valid()
      modifies this
      ensures Valid()
      ensures ok <==>
              old(instance).None? && sampled == old(generation) && a.builds && a.content != "" && a.starts
              && !a.cutStart
      ensures ok ==> instance == Some(|old(engines)|) && config == a.content
      ensures !ok ==> Published() == old(Published())
    {
      if instance.Some? {
        return false;
      }
      var context := BeginStartup(sampled);
      if context.None? {
        return false;
      }
      ok := a.builds && a.content != "";
      if ok {
        ok := TryEngine(context.value, sampled, a.content, a.starts, a.cutStart);
      }
      if ok {
        SetAll(Some(|engines| - 1), context, a.content);
      }
      FinishStartup(context.value, ok);
    }

    /** After a failed replacement: an engine built again from the previous configuration, or nothing. */
    method RestorePrevious(context: nat, sampled: nat, content: string, a: Answers) returns (keep: bool)
      requires startup == Some(context) && Published() == NONE
      requires forall e :: 0 <= e < |engines| ==> engines[e].status != Started
      modifies `instance, `cancel, `config, `ctx, `engines, `generation, `cancelled
      ensures keep <==> context !in old(cancelled) && content != "" && a.rebuilds && a.restarts && !a.cutRestart
      ensures Published() == if keep then Fields(Some(|old(engines)|), Some(context), content, Some(context)) else NONE
      ensures keep ==> engines == old(engines) + [Engine(content, context, sampled, Started)]
      ensures !keep ==> forall e :: 0 <= e < |engines| ==> engines[e].status != Started
      ensures forall c :: c in cancelled ==> c in old(cancelled) || c == context
    {
      if context in cancelled || content == "" || !a.rebuilds {
        return false;
      }
      keep := TryEngine(context, sampled, content, a.restarts, a.cutRestart);
      if keep {
        SetAll(Some(|engines| - 1), Some(context), content);
      }
    }

    /** The previous engine goes, and the candidate that was built comes. */
    method TakeOver(context: nat, sampled: nat, a: Answers) returns (ok: bool)
      requires startup == Some(context) && context < contexts && context !in cancelled && a.content != ""
      requires forall e :: 0 <= e < |engines| && engines[e].status == Started ==> instance == Some(e)
      requires instance.Some? ==> instance.value < |engines| && cancel != Some(context)
      requires forall c :: c in cancelled ==> c < contexts
      requires cancel.Some? ==> cancel.value < context
      modifies `instance, `cancel, `config, `ctx, `engines, `generation, `cancelled, `ingress
      ensures ok <==> (a.closes || old(instance).None?) && a.starts && !a.cutStart
      ensures ingress == None && (forall c :: c in cancelled ==> c < contexts)
      ensures Published() == if ok then Fields(Some(|old(engines)|), Some(context), a.content, Some(context)) else NONE
      ensures |engines| == |old(engines)| + 1
      ensures ok ==> engines[|old(engines)|] == Engine(a.content, context, sampled, Started)
      ensures forall e :: 0 <= e < |engines| && engines[e].status == Started ==> ok && e == |old(engines)|
      ensures context in cancelled ==> a.cutStart
    {
      var previous := instance;
      CloseCurrent();
      if previous.Some? && !a.closes {
        engines := engines + [Engine(a.content, context, sampled, Closed)];
        return false;
      }
      ok := TryEngine(context, sampled, a.content, a.starts, a.cutStart);
      if ok {
        SetAll(Some(|engines| - 1), Some(context), a.content);
      }
    }

    /** A built candidate takes over, or the previous configuration comes back, or nothing is left. */
    method Replace(context: nat, sampled: nat, a: Answers) returns (ok: bool)
      requires startup == Some(context) && context + 1 == contexts && context !in cancelled && a.content != ""
      requires Sound(context)
      modifies this
      ensures Valid()
      ensures ok <==> (a.closes || old(instance).None?) && a.starts && !a.cutStart
      ensures ok ==> instance == Some(|old(engines)|) && config == a.content
      ensures !ok ==> Published() == NONE || (config == old(config) && instance == Some(|old(engines)| + 1))
      ensures !ok && Published() == NONE && old(config) != "" && !a.cutStart && !a.cutRestart ==>
                !(a.rebuilds && a.restarts)
    {
      var content := config;
      ok := TakeOver(context, sampled, a);
      var keep := ok;
      if !ok {
        keep := RestorePrevious(context, sampled, content, a);
      }
      FinishStartup(context, keep);
    }

    /**
     * A candidate that cannot be built changes nothing; one that cannot take
     * over leaves the previous configuration running again, or nothing.
     */
    method ReloadRuntime(sampled: nat, a: Answers) returns (ok: bool)
      requires Valid()
      modifies this
      ensures Valid()
      ensures sampled != old(generation) || !a.builds || a.content == "" ==>
                !ok && Published() == old(Published()) && engines == old(engines) && ingress == old(ingress)
      ensures sampled == old(generation) && a.builds && a.content != "" ==>
                && (ok <==> (a.closes || old(instance).None?) && a.starts && !a.cutStart)
                && (ok ==> instance == Some(|old(engines)|) && config == a.content)
                && (!ok ==> Published() == NONE || (config == old(config) && instance == Some(|old(engines)| + 1)))
                && (!ok && Published() == NONE && old(instance).Some? && !a.cutStart && !a.cutRestart ==>
                      !(a.rebuilds && a.restarts))
    {
      var context := BeginStartup(sampled);
      if context.None? {
        return false;
      }
      if !a.builds || a.content == "" {
        FinishStartup(context.value, false);
        return false;
      }
      ok := Replace(context.value, sampled, a);
    }
  }
}
