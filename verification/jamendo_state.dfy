/**
 * The session record of the Jamendo player composable and the gate that
 * serialises `play()` and `pause()` on its audio element through a single
 * pending-promise slot.
 *
 * The audio element is reduced to what the controller reads of it: whether
 * it is paused, whether it has ended, and its source URL. The `play` and
 * `pause` event listeners keep `playing` in step with it, so the model
 * updates both together. Each call runs to completion before the next one
 * starts; how a `play()` call ends is an input.
 */
module JamendoState {
  import opened Wrappers
  import opened Text

  /** A playlist entry; `id` is `None` when the object has no `id`, and a missing URL or name is "". */
  datatype Track = Track(id: Option<string>, name: string, audio: string, download: string)

  /** The `{}` the controller holds when no track is current. */
  const NoTrack: Track := Track(None, "", "", "")

  /** `repeatMode`: the three values the controller writes, and any other string. */
  datatype Repeat = Off | All | One | Other

  /** What the controller reads of the `Audio` element. */
  datatype Engine = Engine(paused: bool, ended: bool, src: string)

  datatype Player = Player(
    connected: bool,
    engine: Option<Engine>,
    current: Track,
    playing: bool,
    volume: int,
    shuffled: bool,
    repeat: Repeat,
    playlist: seq<Track>,
    index: int,
    autoNext: bool,
    lastError: string,
    loading: bool,
    /** `playPromise` holds a promise. */
    pending: bool)

  /** The fields the gate leaves alone: everything but the element, `playing` and the slot. */
  predicate SameSession(a: Player, b: Player)
  {
    a.connected == b.connected && a.current == b.current && a.volume == b.volume
    && a.shuffled == b.shuffled && a.repeat == b.repeat && a.playlist == b.playlist
    && a.index == b.index && a.autoNext == b.autoNext && a.lastError == b.lastError
    && a.loading == b.loading
  }

  /** `playing` agrees with the element: nothing plays without an element, or while it is paused. */
  predicate Consistent(s: Player)
  {
    s.playing ==> s.engine.Some? && !s.engine.value.paused
  }

  /** The values the composable starts with. */
  const Initial: Player := Player(false, None, NoTrack, false, 50, false, Off, [], 0, true, "", false, false)

  /** `initializePlayer`: a fresh element, paused with no source. */
  function Initialize(s: Player): (r: Player)
    ensures r.engine == Some(Engine(true, false, ""))
    ensures r.(engine := s.engine) == s
  {
    s.(engine := Some(Engine(true, false, "")))
  }

  // ---------------------------------------------------------------------
  // The play/pause gate

  /** A rejected promise's error: its `name` and `message`. */
  datatype JsError = JsError(name: string, message: string)

  /** How a `play()` promise settles. */
  datatype PlayOutcome = Started | Rejected(error: JsError)

  /** An interruption `safePlay` reports as normal: an `AbortError`, or a message mentioning "interrupted". */
  predicate Swallowed(e: JsError)
  {
    e.name == "AbortError" || Contains(e.message, "interrupted")
  }

  /** The state after a gate call, and the error it throws, if any. */
  datatype Gate = Gate(state: Player, thrown: Option<JsError>)

  /** `audio.pause()` when the element is playing; the `pause` listener clears `playing`. */
  function PauseEngine(s: Player): (r: Player)
    requires s.engine.Some?
    ensures r.engine.Some? && r.engine.value.paused
    ensures r.engine.value.ended == s.engine.value.ended && r.engine.value.src == s.engine.value.src
    ensures s.engine.value.paused ==> r == s
    ensures !s.engine.value.paused ==> !r.playing
    ensures SameSession(r, s) && r.pending == s.pending
    ensures Consistent(s) ==> Consistent(r) && !r.playing
  {
    if s.engine.value.paused then s
    else s.(engine := Some(s.engine.value.(paused := true)), playing := false)
  }

  /**
   * `safePlay`: waits for a pending promise, pauses a playing element, then
   * calls `play()` and waits for it. The slot is empty afterwards whatever
   * happened; an interruption is swallowed and any other rejection rethrown.
   */
  function SafePlay(s: Player, outcome: PlayOutcome): (r: Gate)
    requires s.engine.Some?
    ensures !r.state.pending
    ensures r.state.engine.Some? && r.state.engine.value.src == s.engine.value.src
    ensures outcome.Started? ==> (r.thrown.None? && r.state.playing && !r.state.engine.value.paused
      && !r.state.engine.value.ended)
    ensures outcome.Rejected? ==> r.state.engine.value.paused
    ensures r.thrown.Some? <==> outcome.Rejected? && !Swallowed(outcome.error)
    ensures r.thrown.Some? ==> r.thrown.value == outcome.error
    ensures SameSession(r.state, s)
    ensures Consistent(s) ==> Consistent(r.state)
  {
    // The pending promise is awaited but not cleared; the slot is overwritten below.
    var paused := PauseEngine(s);
    var e := paused.engine.value;
    match outcome
    case Started =>
      Gate(paused.(engine := Some(e.(paused := false, ended := false)), playing := true, pending := false), None)
    case Rejected(error) =>
      var after := paused.(pending := false);
      if Swallowed(error) then Gate(after, None) else Gate(after, Some(error))
  }

  /**
   * `safePause`: waits for and clears a pending promise, then pauses a
   * playing element. Everything it could throw (there is no element to
   * pause) is caught, so it never throws.
   */
  function SafePause(s: Player): (r: Gate)
    ensures !r.state.pending && r.thrown.None?
    ensures s.engine.Some? ==> r.state.engine.Some? && r.state.engine.value.paused
    ensures s.engine.Some? && !s.engine.value.paused ==> !r.state.playing
    ensures s.engine.Some? && s.engine.value.paused ==> r.state.playing == s.playing
    ensures s.engine.Some? ==> r.state.engine.value.src == s.engine.value.src
    ensures s.engine.None? ==> r.state == s.(pending := false)
    ensures SameSession(r.state, s)
    ensures Consistent(s) ==> Consistent(r.state) && !r.state.playing
  {
    var cleared := s.(pending := false);
    if s.engine.None? then Gate(cleared, None)
    else Gate(PauseEngine(cleared), None)
  }

  /** Pausing twice is pausing once. */
  lemma SafePauseIdempotent(s: Player)
    ensures SafePause(SafePause(s).state) == SafePause(s)
  {
  }
}
