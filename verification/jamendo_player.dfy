/**
 * The operations of the Jamendo player composable over its session record:
 * loading and playing a track, next and previous, play/pause, volume,
 * shuffle and repeat, the playlist setters, the end-of-track handler and
 * disconnection.
 *
 * What the audio element does is an input: how loading a source ends
 * (`LoadOutcome`) and how a `play()` call settles (`PlayOutcome`). The
 * shuffle's random draw is an input too.
 */
module JamendoPlayer {
  import opened Wrappers
  import opened JamendoState
  import opened PlaylistPolicy

  // ---------------------------------------------------------------------
  // Messages

  /** `'播放失敗: ' + error.message`: what `playTrack` records for any failure. */
  function PlayFailed(message: string): string
  {
    "播放失敗: " + message
  }

  const NoUrl: string := "沒有可用的音頻 URL"
  const LoadFailed: string := "音頻載入失敗"
  const LoadTimedOut: string := "音頻載入超時"
  /** The `TypeError` of `track.name` when `track` is `undefined` (V8's wording). */
  const UndefinedTrack: string := "Cannot read properties of undefined (reading 'name')"
  const ControlFailed: string := "播放控制失敗"

  /** How loading a new source ends: `canplay`, an `error` event, or the 10-second timer. */
  datatype LoadOutcome = CanPlay | LoadError | TimedOut

  // ---------------------------------------------------------------------
  // Playlist setters

  /** `setPlaylist(tracks, startIndex)`. */
  function SetPlaylist(s: Player, tracks: seq<Track>, start: int): (r: Player)
    ensures r.playlist == tracks && r.index == start
    ensures r.(playlist := s.playlist, index := s.index) == s
  {
    s.(playlist := tracks, index := start)
  }

  /** `clearPlaylist`. */
  function ClearPlaylist(s: Player): (r: Player)
    ensures r.playlist == [] && r.index == 0
    ensures r.(playlist := s.playlist, index := s.index) == s
  {
    s.(playlist := [], index := 0)
  }

  /** `currentPlaylist.value[i]`: `None` stands for `undefined` outside the list. */
  function TrackAt(ps: seq<Track>, i: int): (t: Option<Track>)
    ensures t.Some? <==> 0 <= i < |ps|
    ensures t.Some? ==> t.value == ps[i]
  {
    if 0 <= i < |ps| then Some(ps[i]) else None
  }

  // ---------------------------------------------------------------------
  // playTrack

  /** `track.audio || track.audiodownload`. */
  function AudioUrl(t: Track): (url: string)
    ensures url == "" <==> t.audio == "" && t.download == ""
    ensures url == t.audio || url == t.download
    ensures t.audio != "" ==> url == t.audio
  {
    if t.audio != "" then t.audio else t.download
  }

  /** The `catch` of `playTrack`. */
  function Fail(s: Player, message: string): (r: Player)
    ensures r.lastError == PlayFailed(message) && !r.loading
    ensures r.(lastError := s.lastError, loading := s.loading) == s
  {
    s.(lastError := PlayFailed(message), loading := false)
  }

  /** Lines 249-255: the track is already loaded and has not ended. */
  predicate SameTrack(s: Player, t: Track)
  {
    s.engine.Some? && s.current.id == t.id && !s.engine.value.ended
  }

  /** Lines 250-254: resume a loaded track, and only if it is paused. */
  function Resume(s: Player, play: PlayOutcome): (r: Player)
    requires s.engine.Some?
    ensures !s.engine.value.paused ==> r == s
    ensures r.current == s.current && r.playlist == s.playlist && r.index == s.index
    ensures r.engine.Some? && r.engine.value.src == s.engine.value.src
    ensures s.engine.value.paused ==> !r.pending
    // A paused element whose play starts ends up playing.
    ensures s.engine.value.paused && play.Started? ==>
      r.playing && !r.engine.value.paused && r.lastError == s.lastError && r.loading == s.loading
    // An interruption is swallowed; any other rejection is recorded by `playTrack`'s catch.
    ensures s.engine.value.paused && play.Rejected? && Swallowed(play.error) ==>
      r.engine.value.paused && r.lastError == s.lastError
    ensures s.engine.value.paused && play.Rejected? && !Swallowed(play.error) ==>
      r.engine.value.paused && r.lastError == PlayFailed(play.error.message) && !r.loading
    ensures Consistent(s) ==> Consistent(r)
  {
    if !s.engine.value.paused then s
    else
      var g := SafePlay(s, play);
      match g.thrown
      case None => g.state
      case Some(e) => Fail(g.state, e.message)
  }

  /**
   * Lines 258-270: raise the loading flag, clear the error, install the
   * playlist, stop what is playing and make `t` current.
   */
  function Prepare(s: Player, t: Track, playlist: Option<seq<Track>>, start: int): (r: Player)
    requires s.engine.Some?
    ensures r.current == t && r.loading && r.lastError == "" && !r.pending
    ensures playlist.Some? ==> r.playlist == playlist.value && r.index == start
    ensures playlist.None? ==> r.playlist == s.playlist && r.index == s.index
    ensures r.engine.Some? && r.engine.value.paused && r.engine.value.src == s.engine.value.src
    ensures r.volume == s.volume && r.shuffled == s.shuffled && r.repeat == s.repeat && r.autoNext == s.autoNext
    ensures Consistent(s) ==> Consistent(r)
  {
    var loading := s.(loading := true, lastError := "");
    var listed := if playlist.Some? then SetPlaylist(loading, playlist.value, start) else loading;
    SafePause(listed).state.(current := t)
  }

  /**
   * Lines 279-309: point the element at `url`, wait for it to load, and play
   * it. Every way out leaves the loading flag down and the promise slot empty.
   */
  function Attach(s: Player, url: string, load: LoadOutcome, play: PlayOutcome): (r: Player)
    ensures !r.loading && (!s.pending ==> !r.pending)
    ensures r.engine.Some? && r.engine.value.src == url
    ensures (load == CanPlay && play.Started?) ==> r.playing && r.lastError == s.lastError
    ensures load == LoadError ==> r.lastError == PlayFailed(LoadFailed) && !r.playing
    ensures load == TimedOut ==> r.lastError == PlayFailed(LoadTimedOut)
    ensures r.current == s.current && r.playlist == s.playlist && r.index == s.index
    ensures r.volume == s.volume && r.shuffled == s.shuffled && r.repeat == s.repeat && r.autoNext == s.autoNext
    ensures !s.playing ==> Consistent(r)
  {
    // Assigning `src` and calling `load()` leave the element paused and not ended.
    var reloaded := s.(engine := Some(Engine(true, false, url)));
    match load
    case LoadError =>
      // The `error` listener clears `playing` before the `catch` rewrites the message.
      Fail(reloaded.(playing := false), LoadFailed)
    case TimedOut => Fail(reloaded, LoadTimedOut)
    case CanPlay => Start(reloaded, play)
  }

  /** Lines 309 and 313-316: the `canplay` listener lowers the loading flag, then `safePlay` runs. */
  function Start(s: Player, play: PlayOutcome): (r: Player)
    requires s.engine.Some?
    ensures !r.loading && !r.pending
    ensures r.engine.Some? && r.engine.value.src == s.engine.value.src
    ensures play.Started? ==> r.playing && r.lastError == s.lastError
    ensures play.Rejected? && Swallowed(play.error) ==> r.lastError == s.lastError
    ensures play.Rejected? && !Swallowed(play.error) ==> r.lastError == PlayFailed(play.error.message)
    ensures r.current == s.current && r.playlist == s.playlist && r.index == s.index
    ensures r.volume == s.volume && r.shuffled == s.shuffled && r.repeat == s.repeat && r.autoNext == s.autoNext
    ensures Consistent(s) ==> Consistent(r)
  {
    var g := SafePlay(s.(loading := false), play);
    match g.thrown
    case None => g.state
    case Some(e) => Fail(g.state, e.message)
  }

  /** Lines 258-309: load a track other than the current one. */
  function Load(s: Player, t: Track, playlist: Option<seq<Track>>, start: int, load: LoadOutcome, play: PlayOutcome): (r: Player)
    requires s.engine.Some?
    ensures r.current == t && !r.loading && !r.pending && r.engine.Some?
    ensures playlist.Some? ==> r.playlist == playlist.value && r.index == start
    ensures playlist.None? ==> r.playlist == s.playlist && r.index == s.index
    ensures AudioUrl(t) == "" ==> r.lastError == PlayFailed(NoUrl) && r.engine.value.src == s.engine.value.src
    ensures AudioUrl(t) != "" ==> r.engine.value.src == AudioUrl(t)
    ensures (AudioUrl(t) != "" && load == CanPlay && play.Started?) ==> r.playing && r.lastError == ""
    ensures r.volume == s.volume && r.shuffled == s.shuffled && r.repeat == s.repeat && r.autoNext == s.autoNext
    ensures Consistent(s) ==> Consistent(r)
  {
    var ready := Prepare(s, t, playlist, start);
    var url := AudioUrl(t);
    if url == "" then Fail(ready, NoUrl) else Attach(ready, url, load, play)
  }

  /** Lines 249 and 257-276: the same-track guard of `playTrack` holds. */
  predicate Guarded(s: Player, t: Track)
  {
    s.current.id == t.id && (s.engine.None? || !s.engine.value.ended)
  }

  /**
   * `playTrack(track, playlistTracks, trackIndex)`. `track` is `None` for
   * `undefined`, whose `name` throws at once; `playlist` is `None` for
   * `null` (any array, even an empty one, replaces the playlist).
   */
  function PlayTrack(s: Player, track: Option<Track>, playlist: Option<seq<Track>>, start: int,
                     load: LoadOutcome, play: PlayOutcome): (r: Player)
    ensures track.None? ==> r == Fail(s, UndefinedTrack)
    ensures track.Some? ==> r.engine.Some? && r.current.id == track.value.id
    // The same-track guard: nothing is reloaded and the playlist is kept.
    ensures (track.Some? && Guarded(s, track.value)) ==>
      (r.current == s.current && r.playlist == s.playlist && r.index == s.index
      && r.engine.value.src == (if s.engine.Some? then s.engine.value.src else ""))
    ensures (track.Some? && Guarded(s, track.value) && s.engine.Some? && !s.engine.value.paused) ==> r == s
    // Any other track is loaded.
    ensures (track.Some? && !Guarded(s, track.value)) ==>
      (r.current == track.value && !r.loading && !r.pending
      && (playlist.Some? ==> r.playlist == playlist.value && r.index == start)
      && (AudioUrl(track.value) == "" ==> r.lastError == PlayFailed(NoUrl))
      && (AudioUrl(track.value) != "" ==> r.engine.value.src == AudioUrl(track.value)))
    ensures Consistent(s) ==> Consistent(r)
  {
    match track
    case None => Fail(s, UndefinedTrack)
    case Some(t) =>
      var ready := if s.engine.None? then Initialize(s) else s;
      if SameTrack(ready, t) then Resume(ready, play)
      else Load(ready, t, playlist, start, load, play)
  }

  /** A track that has ended is reloaded even when it is the current one. */
  lemma EndedTrackReloads(s: Player, t: Track, load: LoadOutcome, play: PlayOutcome)
    requires s.engine.Some? && s.engine.value.ended && AudioUrl(t) != ""
    ensures var r := PlayTrack(s, Some(t), None, 0, load, play);
      r.current == t && r.engine.value.src == AudioUrl(t) && !r.loading
  {
  }

  // ---------------------------------------------------------------------
  // Next and previous

  /**
   * Lines 415-417: move to index `i` and play what the playlist holds there.
   * Outside the playlist that is `undefined`, and `playTrack` records the
   * `TypeError` of `track.name` in its own catch.
   */
  function GoTo(s: Player, i: int, load: LoadOutcome, play: PlayOutcome): (r: Player)
    ensures r.index == i && r.playlist == s.playlist
    ensures 0 <= i < |s.playlist| ==> r.current.id == s.playlist[i].id
    ensures !(0 <= i < |s.playlist|) ==> r.lastError == PlayFailed(UndefinedTrack) && r.current == s.current
    ensures Consistent(s) ==> Consistent(r)
  {
    PlayTrack(s.(index := i), TrackAt(s.playlist, i), None, 0, load, play)
  }

  /**
   * `playNextInPlaylist`. `draw` is the shuffle's random index. An index
   * outside the playlist (repeat `one` on a start index past the end, or a
   * negative index moved on by one) is stored, and then the log line's
   * `nextTrack.name` throws before `playTrack` is reached; `nextTrack` and
   * `handleTrackEnd` only log it, so nothing else changes.
   */
  function PlayNext(s: Player, draw: nat, load: LoadOutcome, play: PlayOutcome): (r: Player)
    requires |s.playlist| == 0 || draw < |s.playlist|
    ensures NextIndex(|s.playlist|, s.index, s.repeat, s.shuffled, draw).None? ==> r == s
    ensures NextIndex(|s.playlist|, s.index, s.repeat, s.shuffled, draw).Some? ==>
      r.index == NextIndex(|s.playlist|, s.index, s.repeat, s.shuffled, draw).value && r.playlist == s.playlist
    ensures NextIndex(|s.playlist|, s.index, s.repeat, s.shuffled, draw).Some? ==>
      var i := NextIndex(|s.playlist|, s.index, s.repeat, s.shuffled, draw).value;
      (0 <= i < |s.playlist| ==> r == GoTo(s, i, load, play) && r.current.id == s.playlist[i].id)
      && (!(0 <= i < |s.playlist|) ==> r == s.(index := i))
    ensures Consistent(s) ==> Consistent(r)
  {
    match NextIndex(|s.playlist|, s.index, s.repeat, s.shuffled, draw)
    case None => s
    case Some(i) => if 0 <= i < |s.playlist| then GoTo(s, i, load, play) else s.(index := i)
  }

  /** `previousTrack`. */
  function Previous(s: Player, load: LoadOutcome, play: PlayOutcome): (r: Player)
    ensures s.playlist == [] ==> r == s
    ensures s.playlist != [] ==> r == GoTo(s, PreviousIndex(|s.playlist|, s.index, s.repeat).value, load, play)
    ensures s.playlist != [] ==> r.index == PreviousIndex(|s.playlist|, s.index, s.repeat).value
    ensures Consistent(s) ==> Consistent(r)
  {
    match PreviousIndex(|s.playlist|, s.index, s.repeat)
    case None => s
    case Some(i) => GoTo(s, i, load, play)
  }

  /** A session whose index lies inside its playlist keeps it there through "next" and "previous". */
  lemma NavigationStaysInRange(s: Player, draw: nat, load: LoadOutcome, play: PlayOutcome)
    requires 0 <= s.index < |s.playlist| && draw < |s.playlist|
    ensures 0 <= Previous(s, load, play).index < |s.playlist|
    ensures var r := PlayNext(s, draw, load, play); 0 <= r.index < |s.playlist|
  {
    PreviousInRange(|s.playlist|, s.index, s.repeat);
    NextInRange(|s.playlist|, s.index, s.repeat, s.shuffled, draw);
  }

  /** At the last track with repeat `off`, "next" stops even with shuffle on. */
  lemma LastTrackStops(s: Player, draw: nat, load: LoadOutcome, play: PlayOutcome)
    requires s.playlist != [] && s.index == |s.playlist| - 1 && s.repeat == Off && draw < |s.playlist|
    ensures PlayNext(s, draw, load, play) == s
  {
  }

  // ---------------------------------------------------------------------
  // Controls

  /** `togglePlay`: nothing without an element or a named track, or while loading. */
  function TogglePlay(s: Player, play: PlayOutcome): (r: Player)
    ensures (s.engine.None? || s.current.name == "" || s.loading) ==> r == s
    ensures !(s.engine.None? || s.current.name == "" || s.loading) ==>
      (!r.pending && r.current == s.current && r.playlist == s.playlist)
    ensures (!(s.engine.None? || s.current.name == "" || s.loading) && Consistent(s) && s.playing) ==> !r.playing
    ensures (!(s.engine.None? || s.current.name == "" || s.loading) && !s.playing) ==>
      (r.playing <==> play.Started?)
      && (r.lastError == (if play.Rejected? && !Swallowed(play.error) then ControlFailed else s.lastError))
    ensures Consistent(s) ==> Consistent(r)
  {
    if s.engine.None? || s.current.name == "" || s.loading then s
    else if s.playing then SafePause(s).state
    else
      var g := SafePlay(s, play);
      if g.thrown.Some? then g.state.(lastError := ControlFailed) else g.state
  }

  /** `setVolume`: the level clamped to 0..100; nothing happens before the element exists. */
  function SetVolume(s: Player, level: int): (r: Player)
    ensures s.engine.None? ==> r == s
    ensures s.engine.Some? ==> 0 <= r.volume <= 100
    ensures s.engine.Some? && 0 <= level <= 100 ==> r.volume == level
    ensures s.engine.Some? && level < 0 ==> r.volume == 0
    ensures s.engine.Some? && level > 100 ==> r.volume == 100
    ensures r.(volume := s.volume) == s
  {
    if s.engine.None? then s
    else
      var capped := if level < 100 then level else 100;
      s.(volume := if capped > 0 then capped else 0)
  }

  /** Setting a volume twice is setting it once. */
  lemma SetVolumeIdempotent(s: Player, level: int)
    ensures SetVolume(SetVolume(s, level), level) == SetVolume(s, level)
  {
  }

  /** `toggleShuffle`. */
  function ToggleShuffle(s: Player): (r: Player)
    ensures r.shuffled == !s.shuffled
    ensures r.(shuffled := s.shuffled) == s
  {
    s.(shuffled := !s.shuffled)
  }

  /** Toggling shuffle twice changes nothing. */
  lemma ToggleShuffleInvolution(s: Player)
    ensures ToggleShuffle(ToggleShuffle(s)) == s
  {
  }

  /** `toggleRepeat`. */
  function ToggleRepeat(s: Player): (r: Player)
    ensures r.repeat == NextRepeat(s.repeat)
    ensures r.(repeat := s.repeat) == s
  {
    s.(repeat := NextRepeat(s.repeat))
  }

  /** Three repeat toggles change nothing, once the mode is one the controller writes. */
  lemma ToggleRepeatThrice(s: Player)
    ensures s.repeat != Other ==> ToggleRepeat(ToggleRepeat(ToggleRepeat(s))) == s
    ensures ToggleRepeat(s.(repeat := Other)).repeat == Off
  {
    if s.repeat != Other {
      RepeatCycle(s.repeat);
    }
  }

  // ---------------------------------------------------------------------
  // End of track and disconnection

  /**
   * The `ended` listener: the element stops (paused and ended), `playing`
   * drops, and with auto-next on `handleTrackEnd` moves on.
   */
  function TrackEnded(s: Player, draw: nat, load: LoadOutcome, play: PlayOutcome): (r: Player)
    requires s.engine.Some?
    requires |s.playlist| == 0 || draw < |s.playlist|
    ensures !s.autoNext || s.playlist == [] ==>
      r == s.(engine := Some(s.engine.value.(paused := true, ended := true)), playing := false)
  {
    var stopped := s.(engine := Some(s.engine.value.(paused := true, ended := true)), playing := false);
    if s.autoNext && |s.playlist| > 0 then PlayNext(stopped, draw, load, play) else stopped
  }

  /** With repeat `one`, the end of a track starts the same track again from its source. */
  lemma RepeatOneReplays(s: Player, draw: nat)
    requires s.engine.Some? && s.autoNext && s.repeat == One
    requires 0 <= s.index < |s.playlist| && draw < |s.playlist|
    requires AudioUrl(s.playlist[s.index]) != ""
    ensures var r := TrackEnded(s, draw, CanPlay, Started);
      r.index == s.index && r.current == s.playlist[s.index] && r.playing
      && r.engine.value.src == AudioUrl(s.playlist[s.index])
  {
  }

  /**
   * `disconnectJamendo`: the element is paused and emptied (but kept), and
   * the session is reset, with the error cleared.
   */
  function ResetSession(s: Player): (r: Player)
    ensures s.engine.Some? <==> r.engine.Some?
    ensures r.engine.Some? ==> r.engine.value == Engine(true, false, "")
    ensures !r.connected && r.current == NoTrack && !r.playing && r.playlist == [] && r.index == 0
    ensures r.lastError == "" && !r.pending && !r.loading
    ensures r.volume == s.volume && r.shuffled == s.shuffled && r.repeat == s.repeat && r.autoNext == s.autoNext
  {
    // Emptying `src` reloads the element, which leaves it paused and not ended.
    var engine := if s.engine.Some? then Some(Engine(true, false, "")) else None;
    ClearPlaylist(s.(engine := engine, connected := false, current := NoTrack, playing := false)).(
      lastError := "", pending := false, loading := false)
  }

  /**
   * `disconnectJamendo` and the events it causes. An empty `src` makes the
   * HTML standard's resource selection algorithm fail, so after the function
   * returns the element fires `loadstart` and then `error`; the `error`
   * listener (lines 99-104) records "音頻載入失敗" and lowers `playing` and
   * the loading flag. Without an element nothing fires.
   */
  function Disconnect(s: Player): (r: Player)
    ensures s.engine.Some? <==> r.engine.Some?
    ensures r.engine.Some? ==> r.engine.value == Engine(true, false, "")
    ensures !r.connected && r.current == NoTrack && !r.playing && r.playlist == [] && r.index == 0
    ensures s.engine.Some? ==> r.lastError == LoadFailed
    ensures s.engine.None? ==> r.lastError == ""
    ensures !r.pending && !r.loading
    ensures r.volume == s.volume && r.shuffled == s.shuffled && r.repeat == s.repeat && r.autoNext == s.autoNext
    ensures Consistent(r)
  {
    var reset := ResetSession(s);
    if reset.engine.Some? then reset.(lastError := LoadFailed, playing := false, loading := false) else reset
  }

  /** After disconnecting, play/pause does nothing until a track is played. */
  lemma DisconnectedToggleIsNoop(s: Player, play: PlayOutcome)
    ensures TogglePlay(Disconnect(s), play) == Disconnect(s)
  {
  }
}
