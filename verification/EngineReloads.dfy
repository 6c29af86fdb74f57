// When each ending of a reload occurs, in any interleaving with other calls and
// cancellations (singbox-bridge/main.go).
module EngineReloads {
  import opened Common
  import opened EngineLifecycle
  import opened EngineTheorems

  // ---- contexts ----

  predicate HasOp(h: Holder) {
    || h.Opened? || h.Made? || h.Detached? || h.Ready? || h.Up? || h.Restoring? || h.Remade? || h.ReUp?
    || h.Finishing? || h.Leaving?
  }

  predicate Before(c: Option<nat>, bound: nat) { c.Some? ==> c.value < bound }

  /** Contexts are numbered as they are opened, and the startup slot holds the one under way. */
  predicate ContextsOk(w: World) {
    && (forall c :: c in w.cancelled ==> c < w.contexts)
    && (forall e :: 0 <= e < |w.engines| ==> w.engines[e].ctx < w.contexts)
    && Before(w.startup, w.contexts) && Before(w.fields.cancel, w.contexts)
    && (w.holder.Stopping? ==> Before(w.holder.entry.cancel, w.contexts))
    && (HasOp(w.holder) ==>
          && w.holder.op.ctx < w.contexts && Before(w.holder.op.entry.cancel, w.holder.op.ctx)
          && (!w.holder.Leaving? ==> w.startup == Some(w.holder.op.ctx)))
  }

  lemma {:induction false} NextContexts(w: World, s: Step)
    requires ContextsOk(w)
    ensures ContextsOk(Next(w, s))
  {
    hide ContextsOk, AdvanceStep;
    if !s.Advance? {
      OtherContexts(w, s);
    } else if w.holder.Entered? {
      EnteredContexts(w, s.ok, s.content);
    } else if w.holder.Opened? || w.holder.Restoring? {
      BuildContexts(w, s.ok, s.content);
    } else if w.holder.Detached? {
      CloseContexts(w, s.ok, s.content);
    } else if w.holder.Ready? || w.holder.Remade? || w.holder.Up? || w.holder.ReUp? {
      StartContexts(w, s.ok, s.content);
    } else {
      RestContexts(w, s.ok, s.content);
    }
  }

  lemma {:induction false} OtherContexts(w: World, s: Step)
    requires ContextsOk(w) && !s.Advance?
    ensures ContextsOk(Next(w, s))
  {
  }

  lemma {:induction false} EnteredContexts(w: World, ok: bool, content: string)
    requires ContextsOk(w) && w.holder.Entered?
    ensures ContextsOk(AdvanceStep(w, ok, content))
  {
  }

  lemma {:induction false} BuildContexts(w: World, ok: bool, content: string)
    requires ContextsOk(w) && (w.holder.Opened? || w.holder.Restoring?)
    ensures ContextsOk(AdvanceStep(w, ok, content))
  {
  }

  lemma {:induction false} CloseContexts(w: World, ok: bool, content: string)
    requires ContextsOk(w) && w.holder.Detached?
    ensures ContextsOk(AdvanceStep(w, ok, content))
  {
  }

  lemma {:induction false} StartContexts(w: World, ok: bool, content: string)
    requires ContextsOk(w) && (w.holder.Ready? || w.holder.Remade? || w.holder.Up? || w.holder.ReUp?)
    ensures ContextsOk(AdvanceStep(w, ok, content))
  {
  }

  lemma {:induction false} RestContexts(w: World, ok: bool, content: string)
    requires ContextsOk(w)
    requires || w.holder.Free? || w.holder.Made? || w.holder.Finishing? || w.holder.Leaving? || w.holder.Stopping?
             || w.holder.Stopped? || w.holder.Binding?
    ensures ContextsOk(AdvanceStep(w, ok, content))
  {
  }

  lemma {:induction false} RunContexts(ws: seq<World>, steps: seq<Step>, i: nat)
    requires IsRun(ws, steps) && i < |ws|
    ensures ContextsOk(ws[i])
  {
    hide Next;
    if i == 0 {
    } else {
      RunContexts(ws, steps, i - 1);
      assert ws[i - 1 + 1] == Next(ws[i - 1], steps[i - 1]);
      NextContexts(ws[i - 1], steps[i - 1]);
    }
  }

  /** A cancellation, on its own or as the first act of a stop. */
  predicate Cancels(s: Step) { s.CancelStart? || s == Enter(StopKind) }

  ghost predicate CancelledBetween(steps: seq<Step>, a: nat, k: nat) {
    exists m :: a < m < k <= |steps| && Cancels(steps[m])
  }

  /** Step a opened the startup that is still under way at state k. */
  predicate UnderWaySince(ws: seq<World>, steps: seq<Step>, a: nat, k: nat) {
    && IsRun(ws, steps) && a < k <= |steps| && ws[a].holder.Entered? && ws[a + 1].holder.Opened?
    && (forall m :: a < m <= k ==> HasOp(ws[m].holder) && !ws[m].holder.Leaving?)
  }

  /** A startup's context is cancelled exactly when a cancellation came after it was opened. */
  lemma {:induction false} CancelledExactly(ws: seq<World>, steps: seq<Step>, a: nat, k: nat)
    requires UnderWaySince(ws, steps, a, k)
    ensures HasOp(ws[k].holder) && HasOp(ws[a + 1].holder) && ws[k].holder.op == ws[a + 1].holder.op
    ensures ws[k].holder.op.ctx in ws[k].cancelled <==> CancelledBetween(steps, a, k)
    decreases k
  {
    hide Next, ContextsOk, CancelledBetween;
    RunContexts(ws, steps, k - 1);
    assert ws[k - 1 + 1] == Next(ws[k - 1], steps[k - 1]);
    if k == a + 1 {
      JustOpened(ws[a], steps[a]);
      NothingBetween(steps, a);
    } else {
      CancelledExactly(ws, steps, a, k - 1);
      OneMore(ws[k - 1], steps[k - 1]);
      OneMoreBetween(steps, a, k - 1);
    }
  }

  lemma {:induction false} JustOpened(w: World, s: Step)
    requires ContextsOk(w) && w.holder.Entered? && Next(w, s).holder.Opened?
    ensures Next(w, s).holder.op.ctx !in Next(w, s).cancelled
  {
  }

  lemma {:induction false} OneMore(w: World, s: Step)
    requires ContextsOk(w) && HasOp(w.holder) && !w.holder.Leaving? && HasOp(Next(w, s).holder)
    ensures var c := w.holder.op.ctx;
            && Next(w, s).holder.op == w.holder.op
            && (c in Next(w, s).cancelled <==> c in w.cancelled || Cancels(s))
  {
  }

  lemma {:induction false} NothingBetween(steps: seq<Step>, a: nat)
    ensures !CancelledBetween(steps, a, a + 1)
  {
  }

  lemma {:induction false} OneMoreBetween(steps: seq<Step>, a: nat, k: nat)
    requires a < k < |steps|
    ensures CancelledBetween(steps, a, k + 1) <==> CancelledBetween(steps, a, k) || Cancels(steps[k])
  {
    if CancelledBetween(steps, a, k) {
      var m :| a < m < k && Cancels(steps[m]);
      assert a < m < k + 1 && Cancels(steps[m]);
    }
  }

  // ---- what decides a reload ----

  datatype Event = BuiltCandidate | CandidateUp | PreviousUp

  /**
   * The candidate is built; it has started and its context is live when that is
   * looked at; an engine rebuilt from the previous configuration has.
   */
  predicate Occurs(w: World, s: Step, e: Event) {
    && s.Advance?
    && match e
       case BuiltCandidate => w.holder.Opened? && Builds(w, w.holder.op, s.ok, s.content)
       case CandidateUp => w.holder.Up? && w.holder.ok && w.holder.op.ctx !in w.cancelled
       case PreviousUp => w.holder.ReUp? && w.holder.ok && w.holder.op.ctx !in w.cancelled
  }

  ghost predicate Has(ws: seq<World>, steps: seq<Step>, i: nat, k: nat, e: Event) {
    exists m :: i <= m < k <= |steps| < |ws| && Occurs(ws[m], steps[m], e)
  }

  lemma {:induction false} HasOneMore(ws: seq<World>, steps: seq<Step>, i: nat, k: nat, e: Event)
    requires i <= k < |steps| < |ws|
    ensures Has(ws, steps, i, k + 1, e) <==> Has(ws, steps, i, k, e) || Occurs(ws[k], steps[k], e)
  {
    hide Occurs;
    if Has(ws, steps, i, k, e) {
      var m :| i <= m < k && Occurs(ws[m], steps[m], e);
      assert i <= m < k + 1 && Occurs(ws[m], steps[m], e);
    }
  }

  /** What a reload that has got this far has seen. */
  predicate Seen(h: Holder, e: Event) {
    match e
    case BuiltCandidate => !(h.Entered? || h.Opened?) && !(h.Leaving? && h.ending == Untouched)
        && !(h.Finishing? && h.ending == Untouched)
    case CandidateUp => (h.Finishing? || h.Leaving?) && h.ending == Published
    case PreviousUp => (h.Finishing? || h.Leaving?) && h.ending == Restored
  }

  lemma {:induction false} StepSees(w: World, s: Step, e: Event)
    requires HasOp(w.holder) || w.holder.Entered?
    requires HasOp(w.holder) ==> w.holder.op.reload
    requires w.holder.Entered? ==> w.holder.call.ReloadCall?
    ensures var w' := Next(w, s);
            && (w'.holder != Free ==> (Seen(w'.holder, e) <==> Seen(w.holder, e) || Occurs(w, s, e)))
            && (w'.holder == Free ==> !Occurs(w, s, e))
  {
  }

  lemma {:induction false} SeenSoFar(ws: seq<World>, steps: seq<Step>, i: nat, k: nat, generation: nat, e: Event)
    requires IsRun(ws, steps) && i <= k < |ws| && ws[i].holder == Entered(ReloadCall(generation))
    requires forall m :: i < m <= k ==> ws[m].holder != Free
    ensures Has(ws, steps, i, k, e) <==> Seen(ws[k].holder, e)
    ensures HasOp(ws[k].holder) ==> ws[k].holder.op.reload
    ensures HasOp(ws[k].holder) || ws[k].holder == Entered(ReloadCall(generation))
    decreases k
  {
    hide Next, Seen, Occurs, Has, UnderWay;
    if k == i {
      NothingSeen(ws, steps, i, generation, e);
    } else {
      SeenSoFar(ws, steps, i, k - 1, generation, e);
      assert ws[k - 1 + 1] == Next(ws[k - 1], steps[k - 1]);
      HasOneMore(ws, steps, i, k - 1, e);
      StepSees(ws[k - 1], steps[k - 1], e);
      ReloadEnds(ws, steps, i, k, generation);
      StillReloads(ws[i], generation, ws[k]);
    }
  }

  lemma {:induction false} StillReloads(w0: World, generation: nat, w: World)
    requires UnderWay(w0, generation, w)
    ensures HasOp(w.holder) ==> w.holder.op.reload
    ensures HasOp(w.holder) || w.holder == Entered(ReloadCall(generation))
  {
    hide Grown, Ended;
  }

  lemma {:induction false} NothingSeen(ws: seq<World>, steps: seq<Step>, i: nat, generation: nat, e: Event)
    requires i < |ws| && ws[i].holder == Entered(ReloadCall(generation))
    ensures !Has(ws, steps, i, i, e) && !Seen(ws[i].holder, e)
  {
  }

  /**
   * A reload, from taking the lock to letting go of it, in any interleaving.  It
   * leaves a new engine or nothing exactly when a candidate was built; the
   * candidate exactly when it started with its context live; an engine with the
   * previous configuration exactly when a rebuilt one did; and nothing exactly
   * when a candidate was built and neither came up.
   */
  lemma {:induction false} ReloadDecided(ws: seq<World>, steps: seq<Step>, i: nat, j: nat, generation: nat)
    requires IsRun(ws, steps) && i < j < |ws| && ws[i].holder == Entered(ReloadCall(generation))
    requires (forall k :: i < k < j ==> ws[k].holder != Free) && ws[j].holder == Free
    ensures var n, built := |ws[i].engines|, Has(ws, steps, i, j, BuiltCandidate);
            var candidate, previous := Has(ws, steps, i, j, CandidateUp), Has(ws, steps, i, j, PreviousUp);
            && (built <==> |ws[j].engines| > n)
            && (candidate <==> ws[j].fields.instance == Some(n))
            && (previous <==> ws[j].fields.instance == Some(n + 1))
            && (previous ==> ws[j].fields.config == ws[i].fields.config)
            && (built && !candidate && !previous <==> |ws[j].engines| > n && ws[j].fields == NONE)
            && (!built <==> ws[j].fields == ws[i].fields && ws[j].engines == ws[i].engines)
  {
    hide Next, Seen, Occurs, Has, UnderWay, Inv;
    var k := j - 1;
    StepAt(ws, steps, k);
    RunInv(ws, steps, i);
    PublishedBefore(ws[i], generation);
    forall e: Event
      ensures Has(ws, steps, i, j, e) <==> Seen(ws[k].holder, e)
    {
      SeenSoFar(ws, steps, i, k, generation, e);
      HasOneMore(ws, steps, i, k, e);
      StepSees(ws[k], steps[k], e);
    }
    SeenSoFar(ws, steps, i, k, generation, BuiltCandidate);
    if k == i {
      TurnedAway(ws[i], steps[i], generation);
    } else {
      ReloadEnds(ws, steps, i, k, generation);
      LetGo(ws[i], generation, ws[k], steps[k]);
    }
  }

  lemma {:induction false} StepAt(ws: seq<World>, steps: seq<Step>, k: nat)
    requires IsRun(ws, steps) && k < |steps|
    ensures ws[k + 1] == Next(ws[k], steps[k])
  {
  }

  lemma {:induction false} PublishedBefore(w: World, generation: nat)
    requires Inv(w) && w.holder == Entered(ReloadCall(generation))
    ensures w.fields.instance.Some? ==> w.fields.instance.value < |w.engines|
  {
  }

  /** A reload that is turned away at once leaves what it found. */
  lemma {:induction false} TurnedAway(w: World, s: Step, generation: nat)
    requires w.holder == Entered(ReloadCall(generation)) && Next(w, s).holder == Free
    ensures Next(w, s).fields == w.fields && Next(w, s).engines == w.engines && forall e :: !Seen(w.holder, e)
  {
  }

  /** The last step of a reload changes nothing more, and what it has seen says how it ended. */
  lemma {:induction false} LetGo(w0: World, generation: nat, w: World, s: Step)
    requires UnderWay(w0, generation, w) && w.holder != Free && Next(w, s).holder == Free
    requires w0.fields.instance.Some? ==> w0.fields.instance.value < |w0.engines|
    ensures var w', n := Next(w, s), |w0.engines|;
            var built := Seen(w.holder, BuiltCandidate);
            var candidate, previous := Seen(w.holder, CandidateUp), Seen(w.holder, PreviousUp);
            && (built <==> |w'.engines| > n)
            && (candidate <==> w'.fields.instance == Some(n))
            && (previous <==> w'.fields.instance == Some(n + 1))
            && (previous ==> w'.fields.config == w0.fields.config)
            && (built && !candidate && !previous <==> |w'.engines| > n && w'.fields == NONE)
            && (!built <==> w'.fields == w0.fields && w'.engines == w0.engines)
  {
    hide Grown;
  }
}
