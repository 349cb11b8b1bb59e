/**
 * The state kept by the Spotify player composable: how a `player_state_changed`
 * report from the Web Playback SDK is copied into it, the Web API requests the
 * controls compute, and what refreshing the token and disconnecting do to the
 * session and to the two tokens kept in local storage.
 *
 * Requests are values: whether the Web API accepts them is not modelled, and
 * neither is the refresh-and-retry on a 401 answer.
 */
module SpotifyPlayer {
  import opened Wrappers
  import Decimal
  import Arithmetic

  /** The SDK's `current_track`, or a search result handed to `playTrack`; a missing `uri` is "". */
  datatype SdkTrack = SdkTrack(uri: string, id: Option<string>, name: string)

  /** A non-null `player_state_changed` report. Times are milliseconds. */
  datatype Playback = Playback(
    paused: bool,
    position: int,
    duration: int,
    shuffle: bool,
    repeatCode: int,
    track: SdkTrack)

  datatype Connection = Connection(
    connected: bool,
    /** `spotifyPlayer` holds a player. */
    hasPlayer: bool,
    device: string,
    token: string,
    /** `None` is the `{}` the composable holds when no track is current. */
    track: Option<SdkTrack>,
    playing: bool,
    /** Whole seconds. */
    position: int,
    duration: int,
    volume: int,
    shuffled: bool,
    repeat: string,
    /** `localStorage` entries `spotify_access_token` and `spotify_refresh_token`. */
    storedAccess: Option<string>,
    storedRefresh: Option<string>)

  /** The fields only connecting, refreshing and disconnecting write. */
  predicate SameLink(a: Connection, b: Connection)
  {
    a.connected == b.connected && a.hasPlayer == b.hasPlayer && a.device == b.device
    && a.token == b.token && a.storedAccess == b.storedAccess && a.storedRefresh == b.storedRefresh
  }

  /** The token in use is the one saved in storage. */
  predicate Saved(s: Connection)
  {
    s.token != "" ==> s.storedAccess == Some(s.token)
  }

  // ---------------------------------------------------------------------
  // Repeat modes

  const Modes: seq<string> := ["off", "context", "track"]

  /** `Array.prototype.indexOf`: the first position of `x`, or -1. */
  function IndexOf(xs: seq<string>, x: string): (i: int)
    ensures -1 <= i < |xs|
    ensures i == -1 <==> x !in xs
    ensures i >= 0 ==> xs[i] == x && forall j :: 0 <= j < i ==> xs[j] != x
  {
    if xs == [] then -1
    else if xs[0] == x then 0
    else
      var k := IndexOf(xs[1..], x);
      if k == -1 then -1 else k + 1
  }

  /** `repeatStates[state.repeat_mode] || 'off'`. */
  function ModeOf(code: int): (m: string)
    ensures m in Modes
    ensures code == 1 <==> m == "context"
    ensures code == 2 <==> m == "track"
  {
    if 0 <= code < 3 then Modes[code] else "off"
  }

  /** The SDK code of a mode. */
  function ModeCode(m: string): (code: int)
    requires m in Modes
  {
    IndexOf(Modes, m)
  }

  /** The three codes and the three names correspond one to one. */
  lemma ModeCodeRoundTrip(m: string, code: int)
    ensures m in Modes ==> ModeOf(ModeCode(m)) == m
    ensures 0 <= code < 3 ==> ModeCode(ModeOf(code)) == code
  {
  }

  /** `toggleRepeat`: `modes[(modes.indexOf(repeatMode) + 1) % 3]`. */
  function NextMode(m: string): (r: string)
    ensures r in Modes
    ensures m !in Modes ==> r == "off"
  {
    Modes[(IndexOf(Modes, m) + 1) % |Modes|]
  }

  lemma ModePositions()
    ensures IndexOf(Modes, "off") == 0
    ensures IndexOf(Modes, "context") == 1
    ensures IndexOf(Modes, "track") == 2
  {
    assert Modes[1..] == ["context", "track"];
    assert Modes[1..][1..] == ["track"];
  }

  /** off, context, track, and round again. */
  lemma NextModeSteps()
    ensures NextMode("off") == "context"
    ensures NextMode("context") == "track"
    ensures NextMode("track") == "off"
  {
    ModePositions();
  }

  /** Three presses of repeat come back to any of the three modes. */
  lemma NextModeCycle(m: string)
    requires m in Modes
    ensures NextMode(NextMode(NextMode(m))) == m
  {
    NextModeSteps();
  }

  // ---------------------------------------------------------------------
  // player_state_changed

  /** `Math.floor(ms / 1000)`. */
  function Seconds(ms: int): (sec: int)
    ensures sec * 1000 <= ms < sec * 1000 + 1000
  {
    ms / 1000
  }

  /**
   * The `player_state_changed` listener: a null report is ignored; otherwise
   * the track, play state, times, shuffle and repeat mode are copied from it.
   */
  function StateChanged(s: Connection, state: Option<Playback>): (r: Connection)
    ensures state.None? ==> r == s
    ensures state.Some? ==> r.track == Some(state.value.track) && r.playing == !state.value.paused
    ensures state.Some? ==> r.position * 1000 <= state.value.position < r.position * 1000 + 1000
    ensures state.Some? ==> r.duration * 1000 <= state.value.duration < r.duration * 1000 + 1000
    ensures state.Some? ==> r.shuffled == state.value.shuffle && r.repeat == ModeOf(state.value.repeatCode)
    ensures SameLink(r, s) && r.volume == s.volume
  {
    match state
    case None => s
    case Some(p) =>
      s.(track := Some(p.track), playing := !p.paused, position := Seconds(p.position),
         duration := Seconds(p.duration), shuffled := p.shuffle, repeat := ModeOf(p.repeatCode))
  }

  // ---------------------------------------------------------------------
  // Requests

  /** The body of a `/me/player/play` request. */
  datatype PlayBody = PlayBody(deviceId: string, uris: seq<string>)

  /** A `PUT` to the Web API: the endpoint below `https://api.spotify.com/v1`, and the JSON body. */
  datatype Request = Request(endpoint: string, body: Option<PlayBody>)

  /** A control's effect on the state and the request it sends. */
  datatype Command = Command(state: Connection, request: Request)

  const PlayPath: string := "/me/player/play"
  const VolumePath: string := "/me/player/volume"
  const ShufflePath: string := "/me/player/shuffle"
  const RepeatPath: string := "/me/player/repeat"

  /** An endpoint with one query parameter, as the template literals build it. */
  function Endpoint(path: string, key: string, value: string): string
  {
    path + "?" + key + "=" + value
  }

  /** The value the Web API reads for `key` from an endpoint built on `path`. */
  function ReadParam(endpoint: string, path: string, key: string): Option<string>
  {
    var lead := path + "?" + key + "=";
    if |lead| <= |endpoint| && endpoint[..|lead|] == lead then Some(endpoint[|lead|..]) else None
  }

  lemma ReadEndpoint(path: string, key: string, value: string)
    ensures ReadParam(Endpoint(path, key, value), path, key) == Some(value)
  {
    var lead := path + "?" + key + "=";
    assert Endpoint(path, key, value) == lead + value;
  }

  /** `toggleRepeat`: requests the next mode and leaves the state to the SDK's next report. */
  function ToggleRepeat(s: Connection): (r: Command)
    ensures r.state == s && r.request.body.None?
    ensures ReadParam(r.request.endpoint, RepeatPath, "state") == Some(NextMode(s.repeat))
  {
    ReadEndpoint(RepeatPath, "state", NextMode(s.repeat));
    Command(s, Request(Endpoint(RepeatPath, "state", NextMode(s.repeat)), None))
  }

  /** Once the SDK reports the mode `toggleRepeat` asked for, the state shows it. */
  lemma RepeatEcho(s: Connection, p: Playback)
    requires p.repeatCode == ModeCode(NextMode(s.repeat))
    ensures StateChanged(ToggleRepeat(s).state, Some(p)).repeat == NextMode(s.repeat)
  {
    ModeCodeRoundTrip(NextMode(s.repeat), 0);
  }

  /** A boolean in a template literal. */
  function BoolText(b: bool): string
  {
    if b then "true" else "false"
  }

  /** `toggleShuffle`: requests the opposite of the current flag, without changing it locally. */
  function ToggleShuffle(s: Connection): (r: Command)
    ensures r.state == s && r.request.body.None?
    ensures ReadParam(r.request.endpoint, ShufflePath, "state") == Some(BoolText(!s.shuffled))
  {
    ReadEndpoint(ShufflePath, "state", BoolText(!s.shuffled));
    Command(s, Request(Endpoint(ShufflePath, "state", BoolText(!s.shuffled)), None))
  }

  /** Two presses of shuffle, each answered by the SDK, restore the flag. */
  lemma ShuffleEcho(s: Connection, p: Playback, q: Playback)
    requires p.shuffle == !s.shuffled
    ensures var t := StateChanged(ToggleShuffle(s).state, Some(p));
      StateChanged(ToggleShuffle(t).state, Some(q.(shuffle := !t.shuffled))).shuffled == s.shuffled
  {
  }

  // ---------------------------------------------------------------------
  // Volume

  /** JavaScript's `%` on integers: the remainder takes the sign of the dividend. */
  function JsRem(a: int, b: int): (r: int)
    requires b > 0
    ensures -b < r < b
    ensures a >= 0 ==> r >= 0
    ensures a < 0 ==> r <= 0
    ensures (a - r) % b == 0
  {
    if a >= 0 then
      Arithmetic.ModUnique(a - a % b, b, a / b, 0);
      a % b
    else
      Arithmetic.ModUnique(a + (-a) % b, b, -((-a) / b), 0);
      -((-a) % b)
  }

  /** The volume the volume button steps to: `(volume + 10) % 110`. */
  function Step(v: int): (r: int)
    ensures 0 <= v < 100 ==> r == v + 10
    ensures v == 100 ==> r == 0
  {
    JsRem(v + 10, 110)
  }

  /**
   * `setVolume`: a given percentage is stored as it is, without clamping;
   * without one the volume steps by ten and wraps. The state changes before
   * the request is sent, whatever the Web API answers.
   */
  function SetVolume(s: Connection, percent: Option<int>): (r: Command)
    ensures percent.Some? ==> r.state.volume == percent.value
    ensures percent.None? ==> r.state.volume == Step(s.volume)
    ensures r.state == s.(volume := r.state.volume)
    ensures r.request.body.None?
    ensures ReadParam(r.request.endpoint, VolumePath, "volume_percent") == Some(Decimal.IntText(r.state.volume))
  {
    var level := if percent.Some? then percent.value else Step(s.volume);
    ReadEndpoint(VolumePath, "volume_percent", Decimal.IntText(level));
    Command(s.(volume := level), Request(Endpoint(VolumePath, "volume_percent", Decimal.IntText(level)), None))
  }

  /** The number in the request is the stored volume. */
  lemma VolumeParamReadsBack(s: Connection, percent: Option<int>)
    ensures var r := SetVolume(s, percent);
      Decimal.Signed(ReadParam(r.request.endpoint, VolumePath, "volume_percent").value) == Some(r.state.volume)
  {
    Decimal.SignedIntText(SetVolume(s, percent).state.volume);
  }

  /** The volume after `n` presses of the volume button. */
  function Presses(v: int, n: nat): int
    decreases n
  {
    if n == 0 then v else Step(Presses(v, n - 1))
  }

  /** From silence the button climbs by ten up to 100 and then wraps to 0: eleven levels in all. */
  lemma {:induction false} PressesFromZero(n: nat)
    ensures Presses(0, n) == 10 * (n % 11)
    decreases n
  {
    if n > 0 {
      PressesFromZero(n - 1);
      var k := (n - 1) % 11;
      assert n - 1 == 11 * ((n - 1) / 11) + k;
      if k < 10 {
        assert n == 11 * ((n - 1) / 11) + (k + 1);
        Arithmetic.ModUnique(n, 11, (n - 1) / 11, k + 1);
      } else {
        assert n == 11 * ((n - 1) / 11 + 1) + 0;
        Arithmetic.ModUnique(n, 11, (n - 1) / 11 + 1, 0);
      }
    }
  }

  // ---------------------------------------------------------------------
  // Playing a track

  const UriPrefix: string := "spotify:track:"

  /** `${track.id}`: a missing id prints as "undefined". */
  function IdText(id: Option<string>): string
  {
    match id
    case Some(x) => x
    case None => "undefined"
  }

  /** `track.uri ? track.uri : 'spotify:track:' + track.id`. */
  function PlayUri(t: SdkTrack): (u: string)
    ensures t.uri != "" ==> u == t.uri
    ensures t.uri == "" ==> u == UriPrefix + IdText(t.id)
  {
    if t.uri != "" then t.uri else UriPrefix + IdText(t.id)
  }

  /** The track id a `spotify:track:` URI names. */
  function TrackIdOf(u: string): Option<string>
  {
    if |UriPrefix| <= |u| && u[..|UriPrefix|] == UriPrefix then Some(u[|UriPrefix|..]) else None
  }

  /** A track without a URI is played by the URI built from its id, which names that id. */
  lemma UriNamesTrack(t: SdkTrack)
    requires t.uri == "" && t.id.Some?
    ensures TrackIdOf(PlayUri(t)) == t.id
  {
    assert PlayUri(t)[..|UriPrefix|] == UriPrefix;
    assert PlayUri(t)[|UriPrefix|..] == t.id.value;
  }

  const PlayFailed: string := "播放失敗: "
  /** The TypeError V8 raises for `track.name` when `track` is undefined. */
  const UndefinedTrack: string := "Cannot read properties of undefined (reading 'name')"

  /**
   * `playTrack`: a play request for this device carrying exactly one URI. An
   * undefined track fails before any request, with the alert text.
   */
  function PlayTrack(s: Connection, track: Option<SdkTrack>): (r: Result<Request, string>)
    ensures track.None? <==> r.Failure?
    ensures r.Failure? ==> r.error == PlayFailed + UndefinedTrack
    ensures r.Success? ==> (r.value.endpoint == PlayPath && r.value.body.Some?
      && r.value.body.value.deviceId == s.device && |r.value.body.value.uris| == 1
      && r.value.body.value.uris[0] == PlayUri(track.value))
  {
    match track
    case None => Failure(PlayFailed + UndefinedTrack)
    case Some(t) => Success(Request(PlayPath, Some(PlayBody(s.device, [PlayUri(t)]))))
  }

  // ---------------------------------------------------------------------
  // Disconnecting and refreshing

  /**
   * `disconnectSpotify`: both stored tokens are removed, and the connection,
   * player, track, play state and token are cleared. The device id, times,
   * volume, shuffle and repeat mode are kept.
   */
  function Disconnect(s: Connection): (r: Connection)
    ensures !r.connected && !r.hasPlayer && r.track.None? && !r.playing && r.token == ""
    ensures r.storedAccess.None? && r.storedRefresh.None?
    ensures r.device == s.device && r.position == s.position && r.duration == s.duration
    ensures r.volume == s.volume && r.shuffled == s.shuffled && r.repeat == s.repeat
    ensures Saved(r)
  {
    s.(connected := false, hasPlayer := false, track := None, playing := false, token := "",
       storedAccess := None, storedRefresh := None)
  }

  lemma DisconnectIdempotent(s: Connection)
    ensures Disconnect(Disconnect(s)) == Disconnect(s)
  {
  }

  /**
   * How `/api/spotify/refresh/` answers: not at all, with an error status or
   * unreadable JSON (`RefreshFailed`), or with the two token fields, "" when
   * a field is missing or empty.
   */
  datatype RefreshAnswer = RefreshFailed | Refreshed(access: string, refresh: string)

  /** The state after `refreshToken`, and the refresh token it posted, if it posted one. */
  datatype RefreshOutcome = RefreshOutcome(state: Connection, sent: Option<string>)

  /** A stored refresh token the controller uses: present and non-empty. */
  predicate Usable(stored: Option<string>)
  {
    stored.Some? && stored.value != ""
  }

  /** A refresh that yields a new access token. */
  predicate Renews(s: Connection, answer: RefreshAnswer)
  {
    Usable(s.storedRefresh) && answer.Refreshed? && answer.access != ""
  }

  /**
   * `refreshToken`: without a usable refresh token it disconnects at once;
   * otherwise it posts that token. A new access token is used and stored, and
   * a new refresh token replaces the stored one only when the answer carries
   * one. Every failure disconnects.
   */
  function Refresh(s: Connection, answer: RefreshAnswer): (r: RefreshOutcome)
    ensures r.sent.Some? <==> Usable(s.storedRefresh)
    ensures r.sent.Some? ==> r.sent == s.storedRefresh
    ensures Renews(s, answer) ==> (r.state.token == answer.access && r.state.storedAccess == Some(answer.access)
      && r.state.storedRefresh == (if answer.refresh != "" then Some(answer.refresh) else s.storedRefresh)
      && r.state.connected == s.connected && r.state.hasPlayer == s.hasPlayer
      && r.state.track == s.track && r.state.playing == s.playing)
    ensures !Renews(s, answer) ==> r.state == Disconnect(s)
  {
    if !Usable(s.storedRefresh) then RefreshOutcome(Disconnect(s), None)
    else
      var sent := s.storedRefresh;
      match answer
      case RefreshFailed => RefreshOutcome(Disconnect(s), sent)
      case Refreshed(access, refresh) =>
        if access == "" then RefreshOutcome(Disconnect(s), sent)
        else
          var kept := if refresh != "" then Some(refresh) else s.storedRefresh;
          RefreshOutcome(s.(token := access, storedAccess := Some(access), storedRefresh := kept), sent)
  }

  /** After a refresh a usable refresh token is stored exactly when the session was renewed. */
  lemma RefreshKeepsRefreshToken(s: Connection, answer: RefreshAnswer)
    ensures Usable(Refresh(s, answer).state.storedRefresh) <==> Renews(s, answer)
  {
  }

  /** Every operation keeps the token in use saved in storage. */
  lemma SavedPreserved(s: Connection, answer: RefreshAnswer, state: Option<Playback>, percent: Option<int>)
    requires Saved(s)
    ensures Saved(Refresh(s, answer).state)
    ensures Saved(Disconnect(s))
    ensures Saved(StateChanged(s, state))
    ensures Saved(SetVolume(s, percent).state)
    ensures Saved(ToggleRepeat(s).state) && Saved(ToggleShuffle(s).state)
  {
  }
}
