/** The animation selector (`gestionarAnimacion`), the cross-fade switch
    (`cambiarAnimacion`) and the loading of clip slots, as transitions on the
    value of the animation state. */
module Animation {
  import opened Wrappers
  import opened Keyboard

  /** The seven clip slots of `animaciones`. Each slot's action object is
      distinct, so a handle is identified by the slot it was stored in. */
  datatype Clip = Idle | Walk | Attack1 | Attack2 | Defense | Emote | Kick

  /** Seconds of every fade-in and fade-out. */
  const FadeSeconds: real := 0.5

  /** The calls issued on clip actions, in the order they are made. */
  datatype Command =
    | Play(clip: Clip)
    | Reset(clip: Clip)
    | FadeIn(clip: Clip, seconds: real)
    | FadeOut(clip: Clip, seconds: real)

  /** Completed: the handler ran to its end. TypeError: it called a method on
      an `undefined` handle (a slot not loaded yet, or no active clip) and
      stopped there, keeping the assignments made before the call. */
  datatype Outcome = Completed | TypeError

  /** `loaded`: the slots filled so far; `active`/`previous`: the
      `animacionActiva`/`animacionAnterior` references (None is `undefined`);
      `log`: every call issued on an action so far. */
  datatype AnimState = AnimState(loaded: set<Clip>, active: Option<Clip>,
                                 previous: Option<Clip>, log: seq<Command>)

  /** The result of a handler: the new state and how the handler ended. */
  datatype Step = Step(state: AnimState, outcome: Outcome)

  /** `animaciones.<name>`: the slot's handle, `undefined` until it has loaded. */
  function Slot(s: AnimState, c: Clip): (r: Option<Clip>)
    ensures r.Some? <==> c in s.loaded
    ensures r.Some? ==> r.value == c
  {
    if c in s.loaded then Some(c) else None
  }

  /** The clip the key map asks for, by the fixed priority chain. */
  function Select(keys: KeyMap): Clip {
    if Pressed(keys, "w") || Pressed(keys, "s") || Pressed(keys, "a") || Pressed(keys, "d") then Walk
    else if Pressed(keys, "q") then Attack1
    else if Pressed(keys, "e") then Attack2
    else if Pressed(keys, "r") then Defense
    else if Pressed(keys, "b") then Emote
    else if Pressed(keys, "t") then Kick
    else Idle
  }

  /** Reference definition of the priority order: each clip's own trigger,
      and its place in the order (Idle is the default, last). */
  predicate Requested(keys: KeyMap, c: Clip) {
    match c
    case Walk => Pressed(keys, "w") || Pressed(keys, "a") || Pressed(keys, "s") || Pressed(keys, "d")
    case Attack1 => Pressed(keys, "q")
    case Attack2 => Pressed(keys, "e")
    case Defense => Pressed(keys, "r")
    case Emote => Pressed(keys, "b")
    case Kick => Pressed(keys, "t")
    case Idle => true
  }

  function Rank(c: Clip): nat {
    match c
    case Walk => 0
    case Attack1 => 1
    case Attack2 => 2
    case Defense => 3
    case Emote => 4
    case Kick => 5
    case Idle => 6
  }

  /** `c` is requested and nothing ranked before it is. */
  predicate Wins(keys: KeyMap, c: Clip) {
    Requested(keys, c) && forall other: Clip :: Rank(other) < Rank(c) ==> !Requested(keys, other)
  }

  /** The selector picks exactly the winning clip: the order is total (some
      clip always wins) and deterministic (only the selected one does). */
  lemma SelectIsWinner(keys: KeyMap, c: Clip)
    ensures Select(keys) == c <==> Wins(keys, c)
  {
    var sel := Select(keys);
    assert Requested(keys, sel);
    forall other: Clip | Rank(other) < Rank(sel)
      ensures !Requested(keys, other)
    {
    }
    assert Wins(keys, sel);
    if Wins(keys, c) {
      assert Rank(sel) < Rank(c) ==> !Requested(keys, sel);
      assert Rank(c) < Rank(sel) ==> !Requested(keys, c);
    }
  }

  /** Only the nine bound keys matter; every other key is ignored. */
  lemma SelectIgnoresUnboundKeys(keys: KeyMap, other: KeyMap)
    requires forall k :: k in ["w", "s", "a", "d", "q", "e", "r", "b", "t"] ==>
               Pressed(keys, k) == Pressed(other, k)
    ensures Select(keys) == Select(other)
  {
  }

  /** Holding q together with w walks: movement outranks the first attack. */
  lemma MovementOutranksAttack()
    ensures Select(map["q" := true, "w" := true]) == Walk
    ensures Select(map["q" := true]) == Attack1
    ensures Select(map[]) == Idle
  {
  }

  /** `cambiarAnimacion(target)`. When the target is already active nothing
      happens. Otherwise previous takes the old active clip and active takes
      the target; then the old clip is faded out and the new one reset, faded
      in and played, each call failing if its handle is `undefined`. */
  function SwitchTo(s: AnimState, target: Option<Clip>): (r: Step)
    ensures s.active == target ==> r == Step(s, Completed)
    ensures s.active != target ==> r.state.previous == s.active && r.state.active == target
    ensures r.state.loaded == s.loaded
    ensures r.outcome == TypeError <==> s.active != target && (s.active.None? || target.None?)
  {
    if s.active == target then Step(s, Completed)
    else
      var swapped := s.(previous := s.active, active := target);
      match s.active
      case None => Step(swapped, TypeError)
      case Some(leaving) =>
        var faded := swapped.(log := s.log + [FadeOut(leaving, FadeSeconds)]);
        match target
        case None => Step(faded, TypeError)
        case Some(entering) =>
          Step(faded.(log := faded.log + [Reset(entering), FadeIn(entering, FadeSeconds), Play(entering)]),
               Completed)
  }

  /** A switch between two different loaded clips issues exactly the
      cross-fade: fade the old clip out, then reset, fade in and play the new. */
  lemma CrossFade(s: AnimState, leaving: Clip, entering: Clip)
    requires s.active == Some(leaving) && leaving != entering
    ensures SwitchTo(s, Some(entering)) ==
            Step(s.(previous := Some(leaving), active := Some(entering),
                    log := s.log + [FadeOut(leaving, FadeSeconds), Reset(entering),
                                    FadeIn(entering, FadeSeconds), Play(entering)]),
                 Completed)
  {
  }

  /** `gestionarAnimacion`: switch to the selected clip's slot unless it is
      already the active one. */
  function Manage(s: AnimState, keys: KeyMap): (r: Step)
    ensures r.state.active == Slot(s, Select(keys))
    ensures r.state.loaded == s.loaded
    ensures s.active == Slot(s, Select(keys)) ==> r == Step(s, Completed)
  {
    var target := Slot(s, Select(keys));
    if s.active != target then SwitchTo(s, target) else Step(s, Completed)
  }

  /** Running the selector a second time on the same keys does nothing: the
      first run already made the selected slot active. */
  lemma ManageIdempotent(s: AnimState, keys: KeyMap)
    ensures Manage(Manage(s, keys).state, keys) == Step(Manage(s, keys).state, Completed)
  {
  }

  /** Every clip loaded and one of them active: the selector never fails, and
      it either leaves the state alone or performs one cross-fade. */
  lemma ManageWhenAllLoaded(s: AnimState, keys: KeyMap)
    requires s.loaded == {Idle, Walk, Attack1, Attack2, Defense, Emote, Kick}
    requires s.active.Some?
    ensures Manage(s, keys).outcome == Completed
    ensures var r := Manage(s, keys).state;
            var c := Select(keys);
            r == s || (s.active != Some(c) && r.previous == s.active && r.active == Some(c) &&
                       r.log == s.log + [FadeOut(s.active.value, FadeSeconds), Reset(c),
                                         FadeIn(c, FadeSeconds), Play(c)])
  {
  }

  /** Pressing a key before the selected clip has loaded fails, and leaves
      the active reference `undefined`. */
  lemma UnloadedTargetFails(s: AnimState, keys: KeyMap)
    requires Select(keys) !in s.loaded && s.active.Some?
    ensures Manage(s, keys).outcome == TypeError
    ensures Manage(s, keys).state.active.None?
    ensures Manage(s, keys).state.previous == s.active
  {
  }

  /** The load callback of slot `c` (each runs once): the slot is filled; the idle callback also
      makes idle active and plays it, but only when no clip is active yet. */
  function Load(s: AnimState, c: Clip): (r: AnimState)
    ensures r.loaded == s.loaded + {c}
    ensures r.previous == s.previous
    ensures c == Idle && s.active.None? ==> r.active == Some(Idle) && r.log == s.log + [Play(Idle)]
    ensures !(c == Idle && s.active.None?) ==> r.active == s.active && r.log == s.log
  {
    var filled := s.(loaded := s.loaded + {c});
    if c == Idle && s.active.None? then filled.(active := Some(Idle), log := s.log + [Play(Idle)])
    else filled
  }

  /** The invariant of the animation state: active and previous only name
      loaded slots, a transition never leaves them equal unless both are
      `undefined`, and calls are only ever issued on loaded clips. */
  ghost predicate Consistent(s: AnimState) {
    && (s.active.Some? ==> s.active.value in s.loaded)
    && (s.previous.Some? ==> s.previous.value in s.loaded)
    && (s.previous == s.active ==> s.active.None?)
    && forall i :: 0 <= i < |s.log| ==> s.log[i].clip in s.loaded
  }

  /** A switch to a slot's value (a loaded clip or `undefined`) keeps the invariant. */
  lemma SwitchPreserves(s: AnimState, target: Option<Clip>)
    requires Consistent(s)
    requires target.Some? ==> target.value in s.loaded
    ensures Consistent(SwitchTo(s, target).state)
  {
  }

  /** So does every run of the selector. */
  lemma ManagePreserves(s: AnimState, keys: KeyMap)
    requires Consistent(s)
    ensures Consistent(Manage(s, keys).state)
  {
  }

  /** So does the first load of a slot. */
  lemma LoadPreserves(s: AnimState, c: Clip)
    requires Consistent(s) && c !in s.loaded
    ensures Consistent(Load(s, c))
  {
  }

  /** No clip loaded and nothing active: the state right after the model loads. */
  const Initial := AnimState({}, None, None, [])

  /** The startup race: w pressed after the walk clip loaded but before the
      idle clip did fails on `undefined.fadeOut` with walk already marked
      active but never played; when idle then loads it is only stored, so no
      clip plays until the next key event. */
  lemma KeyBeforeIdleLoads()
    ensures var pressed := Manage(Load(Initial, Walk), map["w" := true]);
            && pressed.outcome == TypeError
            && pressed.state.active == Some(Walk)
            && pressed.state.log == []
            && Load(pressed.state, Idle).active == Some(Walk)
            && Load(pressed.state, Idle).log == []
  {
  }
}
