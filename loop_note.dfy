/**
 * The animation phases of one loop-mode note (src/components/loop/LoopNote.jsx).
 * A mounted note is a snapshot of its rendered `phase`, its two refs
 * (`wasActiveRef`, `phaseTimeoutRef`), the attack-to-sustain timers the
 * browser still holds, and the dependency values its effect last ran with.
 * React's commit cycle is modelled explicitly: after a render the effect
 * re-runs (after the previous run's cleanup) only when a dependency changed,
 * and a phase change causes another render.
 */
module LoopNote {
  import opened Wrappers

  datatype Phase = Idle | Attack | Sustain | Fade

  /** `ATTACK_DURATION`, the delay of the attack-to-sustain timer, in milliseconds. */
  const AttackDurationMs := 150

  type TimerId = nat

  /** The values an effect run saw for its dependency list `[isActive, isPast, phase]`. */
  datatype Deps = Deps(isActive: bool, isPast: bool, phase: Phase)

  datatype Anim = Anim(
    phase: Phase,
    wasActive: bool,
    timerRef: Option<TimerId>,
    live: set<TimerId>,
    nextTimer: TimerId,
    lastDeps: Option<Deps>)

  /** A freshly mounted note, before its first effect run. */
  const Mounted := Anim(Idle, false, None, {}, 1, None)

  /** At most one attack timer is pending, and it is the one the ref holds. */
  ghost predicate AtMostOnePending(a: Anim)
  {
    forall t :: t in a.live ==> a.timerRef == Some(t) && t < a.nextTimer
  }

  /**
   * The invariant of every mounted note: at most one timer pending, handles
   * are issued in increasing order, and `wasActiveRef` holds the props the
   * effect last ran with.
   */
  ghost predicate Coherent(a: Anim)
  {
    && AtMostOnePending(a)
    && (a.timerRef.Some? ==> a.timerRef.value < a.nextTimer)
    && (a.lastDeps.Some? ==> a.lastDeps.value.isActive == a.wasActive)
  }

  /** The cleanup of the previous run: clear the timer the ref holds (the ref itself is kept). */
  function Cleanup(a: Anim): (r: Anim)
    ensures r.phase == a.phase && r.wasActive == a.wasActive && r.timerRef == a.timerRef
    ensures r.nextTimer == a.nextTimer && r.lastDeps == a.lastDeps
    ensures r.live <= a.live
    ensures a.timerRef.Some? ==> a.timerRef.value !in r.live
    ensures AtMostOnePending(a) ==> r.live == {}
    ensures Coherent(a) ==> Coherent(r)
  {
    if a.timerRef.Some? then a.(live := a.live - {a.timerRef.value}) else a
  }

  /** One run of the effect body with the given props, reading the rendered phase. */
  function EffectBody(a: Anim, isActive: bool, isPast: bool): (r: Anim)
    ensures r.wasActive == isActive
    ensures r.lastDeps == Some(Deps(isActive, isPast, a.phase))
    ensures isActive && !a.wasActive ==>
              && r.phase == Attack && r.timerRef == Some(a.nextTimer)
              && r.live == (if a.timerRef.Some? then a.live - {a.timerRef.value} else a.live) + {a.nextTimer}
    ensures !(isActive && !a.wasActive) ==>
              && r.timerRef == None && r.nextTimer == a.nextTimer
              && r.live == (if a.timerRef.Some? then a.live - {a.timerRef.value} else a.live)
    ensures !isActive && a.wasActive ==> r.phase == Fade
    ensures !isActive && !a.wasActive && isPast ==> r.phase == Fade
    ensures !isActive && !a.wasActive && !isPast ==> r.phase == Idle
    ensures isActive && a.wasActive ==> r.phase == a.phase
    ensures Coherent(a) ==> Coherent(r)
  {
    var live := if a.timerRef.Some? then a.live - {a.timerRef.value} else a.live;
    var b := a.(live := live, timerRef := None);
    var c :=
      if isActive && !a.wasActive then
        b.(phase := Attack, timerRef := Some(b.nextTimer), live := b.live + {b.nextTimer}, nextTimer := b.nextTimer + 1)
      else if !isActive && a.wasActive then b.(phase := Fade)
      else if !isActive && isPast then (if a.phase != Fade then b.(phase := Fade) else b)
      else if !isActive && !isPast then b.(phase := Idle)
      else b;
    c.(wasActive := isActive, lastDeps := Some(Deps(isActive, isPast, a.phase)))
  }

  /** Renders a phase change can cause before the effect stops re-running. */
  const RenderFuel: nat := 3

  /** The effect's dependencies, as written, are unchanged since its last run. */
  predicate DepsUnchanged(a: Anim, isActive: bool, isPast: bool)
  {
    a.lastDeps == Some(Deps(isActive, isPast, a.phase))
  }

  /** Commit a render with the given props and keep re-rendering while a dependency changed. */
  function Settle(a: Anim, isActive: bool, isPast: bool, fuel: nat): (r: Anim)
    ensures DepsUnchanged(a, isActive, isPast) ==> r == a
    ensures !DepsUnchanged(a, isActive, isPast) && fuel > 0 ==>
              && r.wasActive == isActive
              && r.lastDeps.Some? && r.lastDeps.value.isActive == isActive && r.lastDeps.value.isPast == isPast
    decreases fuel
  {
    if DepsUnchanged(a, isActive, isPast) || fuel == 0 then a
    else Settle(EffectBody(Cleanup(a), isActive, isPast), isActive, isPast, fuel - 1)
  }

  /** Three renders always suffice: afterwards the effect would not run again. */
  lemma SettleConverges(a: Anim, isActive: bool, isPast: bool)
    ensures DepsUnchanged(Settle(a, isActive, isPast, RenderFuel), isActive, isPast)
    ensures Settle(a, isActive, isPast, RenderFuel).wasActive == isActive || DepsUnchanged(a, isActive, isPast)
  {
    var a1 := EffectBody(Cleanup(a), isActive, isPast);
    var a2 := EffectBody(Cleanup(a1), isActive, isPast);
    var a3 := EffectBody(Cleanup(a2), isActive, isPast);
    assert !DepsUnchanged(a, isActive, isPast) && !DepsUnchanged(a1, isActive, isPast) ==>
             a2.phase == a1.phase || a3.phase == a2.phase;
  }

  /** Settling keeps the note coherent, so at most one attack timer is ever pending. */
  lemma {:induction false} SettleKeepsCoherent(a: Anim, isActive: bool, isPast: bool, fuel: nat)
    requires Coherent(a)
    ensures Coherent(Settle(a, isActive, isPast, fuel))
    decreases fuel
  {
    if !DepsUnchanged(a, isActive, isPast) && fuel > 0 {
      SettleKeepsCoherent(EffectBody(Cleanup(a), isActive, isPast), isActive, isPast, fuel - 1);
    }
  }

  // ---------------------------------------------------------------------
  // As written: SUSTAIN is never shown
  // ---------------------------------------------------------------------

  /**
   * What holds of every settled note as written: no attack timer is
   * pending, the phase is never SUSTAIN, and ATTACK is only shown while the
   * note was last seen active.
   */
  ghost predicate QuietAsWritten(a: Anim)
  {
    a.live == {} && a.phase != Sustain && (!a.wasActive ==> a.phase != Attack) && Coherent(a)
  }

  /**
   * A rising edge sets ATTACK and arms the timer, but the phase change
   * re-runs the effect (phase is a dependency) and that run's cleanup
   * cancels the timer: the note settles in ATTACK with nothing pending.
   */
  lemma AttackTimerCancelled(a: Anim, isPast: bool)
    requires QuietAsWritten(a) && !a.wasActive
    ensures var r := Settle(a, true, isPast, RenderFuel);
            r.phase == Attack && r.wasActive && r.live == {}
  {
    assert !DepsUnchanged(a, true, isPast);
    var a1 := EffectBody(Cleanup(a), true, isPast);
    assert a1.phase == Attack && a1.live == {a.nextTimer} && a1.timerRef == Some(a.nextTimer);
    assert !DepsUnchanged(a1, true, isPast);
    var a2 := EffectBody(Cleanup(a1), true, isPast);
    assert a2.live == {} && a2.phase == Attack && DepsUnchanged(a2, true, isPast);
    assert Settle(a, true, isPast, RenderFuel) == a2;
  }

  /** Settling preserves the as-written invariant, whatever the props. */
  lemma SettlePreservesQuiet(a: Anim, isActive: bool, isPast: bool)
    requires QuietAsWritten(a)
    ensures QuietAsWritten(Settle(a, isActive, isPast, RenderFuel))
  {
    SettleKeepsCoherent(a, isActive, isPast, RenderFuel);
    if DepsUnchanged(a, isActive, isPast) {
    } else if isActive && !a.wasActive {
      AttackTimerCancelled(a, isPast);
    } else {
      var a1 := EffectBody(Cleanup(a), isActive, isPast);
      var a2 := EffectBody(Cleanup(a1), isActive, isPast);
      var a3 := EffectBody(Cleanup(a2), isActive, isPast);
      assert QuietAsWritten(a1) && QuietAsWritten(a2) && QuietAsWritten(a3);
    }
  }

  /** The props a note is rendered with, one render after another. */
  datatype Props = Props(isActive: bool, isPast: bool)

  function Replay(a: Anim, renders: seq<Props>): Anim
  {
    if renders == [] then a
    else
      var last := renders[|renders| - 1];
      Settle(Replay(a, renders[..|renders| - 1]), last.isActive, last.isPast, RenderFuel)
  }

  /**
   * From mounting on, whatever props arrive, no attack timer is ever left
   * pending, so no timer can fire and SUSTAIN is never shown.
   */
  lemma {:induction false} NeverSustainsAsWritten(renders: seq<Props>)
    ensures QuietAsWritten(Replay(Mounted, renders))
    ensures Replay(Mounted, renders).phase != Sustain
  {
    if renders != [] {
      NeverSustainsAsWritten(renders[..|renders| - 1]);
      var last := renders[|renders| - 1];
      SettlePreservesQuiet(Replay(Mounted, renders[..|renders| - 1]), last.isActive, last.isPast);
    }
  }

  // ---------------------------------------------------------------------
  // Intended: the effect depends on the props only
  // ---------------------------------------------------------------------

  /** With `[isActive, isPast]` as the dependency list, a phase change alone does not re-run the effect. */
  predicate PropsUnchanged(a: Anim, isActive: bool, isPast: bool)
  {
    a.lastDeps.Some? && a.lastDeps.value.isActive == isActive && a.lastDeps.value.isPast == isPast
  }

  function SettleIntended(a: Anim, isActive: bool, isPast: bool): (r: Anim)
    ensures Coherent(a) ==> Coherent(r)
    ensures PropsUnchanged(r, isActive, isPast)
  {
    if PropsUnchanged(a, isActive, isPast) then a
    else EffectBody(Cleanup(a), isActive, isPast)
  }

  /** The attack timer fires: it leaves the browser's list and the phase becomes SUSTAIN. */
  function FireTimer(a: Anim, id: TimerId): (r: Anim)
    requires id in a.live
    ensures r.phase == Sustain && id !in r.live
    ensures Coherent(a) ==> Coherent(r)
  {
    a.(live := a.live - {id}, phase := Sustain)
  }

  /**
   * With the intended dependencies a rising edge leaves the attack timer
   * pending, and when it fires the note shows SUSTAIN and stays there on
   * the render that follows.
   */
  lemma IntendedReachesSustain(a: Anim, isPast: bool)
    requires Coherent(a) && !a.wasActive
    ensures var r := SettleIntended(a, true, isPast);
            && r.phase == Attack && r.timerRef.Some? && r.timerRef.value in r.live
            && SettleIntended(FireTimer(r, r.timerRef.value), true, isPast).phase == Sustain
  {
  }

  // ---------------------------------------------------------------------
  // The mounted component, as written
  // ---------------------------------------------------------------------

  class NoteAnimator {
    var phase: Phase
    var wasActive: bool
    var timerRef: Option<TimerId>
    var live: set<TimerId>
    var nextTimer: TimerId
    var lastDeps: Option<Deps>
    /** The props of the latest render. */
    var isActive: bool
    var isPast: bool

    function Snapshot(): Anim
      reads this
    {
      Anim(phase, wasActive, timerRef, live, nextTimer, lastDeps)
    }

    ghost predicate Valid()
      reads this
    {
      Coherent(Snapshot())
    }

    constructor ()
      ensures Valid() && Snapshot() == Mounted && !isActive && !isPast
    {
      phase := Idle;
      wasActive := false;
      timerRef := None;
      live := {};
      nextTimer := 1;
      lastDeps := None;
      isActive := false;
      isPast := false;
    }

    /** The cleanup returned by the previous effect run. */
    method RunCleanup()
      requires Valid()
      modifies this`live
      ensures Snapshot() == Cleanup(old(Snapshot())) && live == {}
    {
      if timerRef.Some? {
        live := live - {timerRef.value};
      }
    }

    /** The effect body: clear the pending transition, then pick the phase from the edge. */
    method RunEffect(active: bool, past: bool)
      requires Valid()
      modifies this`phase, this`wasActive, this`timerRef, this`live, this`nextTimer, this`lastDeps
      ensures Valid()
      ensures Snapshot() == EffectBody(old(Snapshot()), active, past)
    {
      var renderedPhase := phase;
      if timerRef.Some? {
        live := live - {timerRef.value};
        timerRef := None;
      }
      if active && !wasActive {
        phase := Attack;
        timerRef := Some(nextTimer);
        live := live + {nextTimer};
        nextTimer := nextTimer + 1;
      } else if !active && wasActive {
        phase := Fade;
      } else if !active && past {
        if renderedPhase != Fade {
          phase := Fade;
        }
      } else if !active && !past {
        phase := Idle;
      }
      wasActive := active;
      lastDeps := Some(Deps(active, past, renderedPhase));
    }

    /** Render with new props: React re-runs the effect while one of its dependencies changed. */
    method Render(active: bool, past: bool)
      requires Valid()
      modifies this
      ensures Valid() && isActive == active && isPast == past
      ensures Snapshot() == Settle(old(Snapshot()), active, past, RenderFuel)
    {
      isActive, isPast := active, past;
      var fuel := RenderFuel;
      while fuel > 0 && !DepsUnchanged(Snapshot(), active, past)
        invariant Valid() && isActive == active && isPast == past
        invariant Settle(Snapshot(), active, past, fuel) == Settle(old(Snapshot()), active, past, RenderFuel)
        decreases fuel
      {
        RunCleanup();
        RunEffect(active, past);
        fuel := fuel - 1;
      }
    }

    /** The attack timer `id` fires: `setPhase(SUSTAIN)`, then the resulting render. */
    method Fire(id: TimerId)
      requires Valid() && id in live
      modifies this
      ensures Valid()
      ensures isActive == old(isActive) && isPast == old(isPast)
      ensures Snapshot() == Settle(FireTimer(old(Snapshot()), id), old(isActive), old(isPast), RenderFuel)
    {
      live := live - {id};
      phase := Sustain;
      Render(isActive, isPast);
    }

    /** Unmounting runs the last cleanup. */
    method Unmount()
      requires Valid()
      modifies this`live
      ensures Valid() && live == {}
    {
      RunCleanup();
    }
  }
}
