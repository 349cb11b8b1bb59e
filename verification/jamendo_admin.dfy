/**
 * The display helpers of the Jamendo admin pages: clock texts, the
 * completion-rate colour tiers, the anonymous user label, the tag summary
 * and the audio and cover previews.
 */
module JamendoAdmin {
  import opened Wrappers
  import Clock
  import Html
  import TrackModel
  import Arithmetic

  // ---------------------------------------------------------------------
  // Durations

  /**
   * `duration_display` and `duration_played_display`: `mm:ss`, "00:00" for
   * a falsy duration. The text reads back as the duration it shows.
   */
  function DurationDisplay(d: int): (s: string)
    ensures Clock.ReadClock(s) == Some(d)
    ensures s == "00:00" <==> d == 0
  {
    Clock.MinutesSecondsReadsBack(d);
    Clock.MinutesSeconds(d)
  }

  // ---------------------------------------------------------------------
  // Completion tiers

  datatype Colour = Green | Orange | Red

  /** `⌊a / b⌋` on the real quotient, as Python's `//` computes it. */
  function FloorDiv(a: int, b: int): int
    requires b != 0
  {
    if b > 0 then a / b else (-a) / (-b)
  }

  lemma FloorDivAtLeast(a: int, b: int, k: int)
    requires b > 0
    ensures a / b >= k <==> a >= k * b
  {
    var q, m := a / b, a % b;
    assert a == b * q + m && 0 <= m < b;
    if q >= k {
      assert b * q >= b * k by { Arithmetic.MulMonotone(b, k, q); }
    } else {
      assert b * q <= b * (k - 1) by { Arithmetic.MulMonotone(b, q, k - 1); }
    }
  }

  /** `⌊a / b⌋ >= k` exactly when the real quotient is at least `k`, for either sign of `b`. */
  lemma FloorDivAtLeastSigned(a: int, b: int, k: int)
    requires b != 0
    ensures FloorDiv(a, b) >= k <==> (if b > 0 then a >= k * b else a <= k * b)
  {
    if b > 0 {
      FloorDivAtLeast(a, b, k);
    } else {
      FloorDivAtLeast(-a, -b, k);
    }
  }

  /**
   * The colour of `completion_rate_display`: green from 80 percent, orange
   * from 50, red below. The percentage `played / duration * 100` reaches a
   * whole threshold exactly when its floor does, so the tiers are computed on
   * the floor of the exact quotient.
   */
  function Tier(played: int, duration: int): (c: Colour)
    requires duration != 0
    ensures duration > 0 ==> (c == Green <==> 100 * played >= 80 * duration)
    ensures duration > 0 ==> (c == Red <==> 100 * played < 50 * duration)
    ensures duration < 0 ==> (c == Green <==> 100 * played <= 80 * duration)
    ensures duration < 0 ==> (c == Red <==> 100 * played > 50 * duration)
  {
    var percent := FloorDiv(100 * played, duration);
    FloorDivAtLeastSigned(100 * played, duration, 80);
    FloorDivAtLeastSigned(100 * played, duration, 50);
    if percent >= 80 then Green else if percent >= 50 then Orange else Red
  }

  /** A track played further never gets a worse colour. */
  lemma TierMonotone(p: int, q: int, duration: int)
    requires duration > 0 && p <= q
    ensures Tier(p, duration) == Green ==> Tier(q, duration) == Green
    ensures Tier(q, duration) == Red ==> Tier(p, duration) == Red
  {
  }

  datatype Completion =
    | NoData
    | Detail(colour: Colour, played: string, total: string)

  /**
   * `completion_rate_display`: "無數據" when either duration is zero;
   * otherwise the colour and both durations as `mm:ss`. (`completion_rate`
   * shows "0%" in exactly the same case.)
   */
  function CompletionDisplay(played: int, duration: int): (r: Completion)
    ensures r.NoData? <==> played == 0 || duration == 0
    ensures r.Detail? ==> r.colour == Tier(played, duration)
    ensures r.Detail? ==> Clock.ReadClock(r.played) == Some(played) && Clock.ReadClock(r.total) == Some(duration)
  {
    if duration == 0 || played == 0 then NoData
    else Detail(Tier(played, duration), DurationDisplay(played), DurationDisplay(duration))
  }

  const NoDataText: string := "無數據"
  /** What the change form shows for a read-only field whose method raised `ValueError`. */
  const EmptyValue: string := "-"

  /**
   * `completion_rate_display` as written, as the change form shows it.
   * `format_html` passes every argument through `conditional_escape`, which
   * turns the float `rate` into escaped text; the `{:.1f}` field then raises
   * `ValueError` (an `f` format code on a string), and the read-only field
   * (line 244) catches it and shows the empty value. `CompletionDisplay` is
   * what the method evidently means to show.
   */
  function CompletionFieldAsWritten(played: int, duration: int): (shown: string)
    ensures shown == EmptyValue <==> CompletionDisplay(played, duration).Detail?
    ensures shown != EmptyValue ==> shown == NoDataText
  {
    if duration == 0 || played == 0 then NoDataText else EmptyValue
  }

  /** A track half played: the intended display is orange, but the page shows "-". */
  lemma CompletionRateHidden()
    ensures CompletionFieldAsWritten(50, 100) == EmptyValue
    ensures CompletionDisplay(50, 100).Detail? && CompletionDisplay(50, 100).colour == Orange
  {
    assert FloorDiv(100 * 50, 100) == 50;
  }

  // ---------------------------------------------------------------------
  // Users

  datatype User = User(username: string, email: string)

  const AnonymousLead: string := "匿名用戶 (Session: "

  /** The first eight characters of a session id, or all of a shorter one. */
  function SessionPrefix(session: string): (p: string)
    ensures |p| == if |session| < 8 then |session| else 8
    ensures p <= session
  {
    if |session| < 8 then session else session[..8]
  }

  /** `user_display`. */
  function UserDisplay(user: Option<User>, session: string): (s: string)
    ensures user.Some? ==> s == user.value.username + " (" + user.value.email + ")"
    ensures user.None? ==> s == AnonymousLead + SessionPrefix(session) + "...)"
  {
    match user
    case Some(u) => u.username + " (" + u.email + ")"
    case None => AnonymousLead + session[..if |session| < 8 then |session| else 8] + "...)"
  }

  /** Two anonymous plays show the same label exactly when their session ids agree on the first eight characters. */
  lemma AnonymousLabelsAgree(a: string, b: string)
    ensures UserDisplay(None, a) == UserDisplay(None, b) <==> SessionPrefix(a) == SessionPrefix(b)
  {
    var la, lb := UserDisplay(None, a), UserDisplay(None, b);
    if la == lb {
      var n := |AnonymousLead|;
      assert la[n..|la| - 4] == SessionPrefix(a);
      assert lb[n..|lb| - 4] == SessionPrefix(b);
    }
  }

  // ---------------------------------------------------------------------
  // Tags

  function Join(sep: string, xs: seq<string>): (s: string)
    ensures xs != [] && |xs[0]| > 0 ==> |s| > 0 && s[0] == xs[0][0]
  {
    if |xs| == 0 then ""
    else if |xs| == 1 then xs[0]
    else xs[0] + sep + Join(sep, xs[1..])
  }

  /**
   * One line of `tags_display`: present when the field holds a non-empty
   * list (empty text, malformed text and `[]` give none).
   */
  function Section(heading: string, text: string): (r: Option<string>)
    ensures r.Some? <==> TrackModel.TagList(text) != []
    ensures r.Some? ==> |r.value| > 0 && r.value[0] == '<'
  {
    var tags := TrackModel.TagList(text);
    if tags == [] then None else Some("<strong>" + heading + ":</strong> " + Join(", ", tags))
  }

  /** A list stored by the setter shows as its items separated by commas. */
  lemma SectionOfStored(heading: string, xs: seq<string>)
    ensures xs == [] ==> Section(heading, TrackModel.TagText(xs)).None?
    ensures xs != [] ==> Section(heading, TrackModel.TagText(xs)) == Some("<strong>" + heading + ":</strong> " + Join(", ", xs))
  {
    TrackModel.TagRoundTrip(xs);
  }

  function Present(xs: seq<Option<string>>): (ys: seq<string>)
    ensures |ys| <= |xs|
    ensures ys == [] <==> forall i :: 0 <= i < |xs| ==> xs[i].None?
    ensures forall j :: 0 <= j < |ys| ==> exists i :: 0 <= i < |xs| && xs[i] == Some(ys[j])
  {
    if xs == [] then []
    else
      var rest := Present(xs[1..]);
      assert forall i :: 1 <= i < |xs| ==> xs[i] == xs[1..][i - 1];
      match xs[0]
      case None => rest
      case Some(x) => [x] + rest
  }

  const NoTags: string := "無標籤信息"

  /** The sections of `tags_display`, in the order genres, instruments, other tags. */
  function Sections(genres: string, instruments: string, vartags: string): (ss: seq<string>)
    ensures forall j :: 0 <= j < |ss| ==> |ss[j]| > 0 && ss[j][0] == '<'
    ensures ss == [] <==> (TrackModel.TagList(genres) == [] && TrackModel.TagList(instruments) == []
      && TrackModel.TagList(vartags) == [])
  {
    var xs := [Section("曲風", genres), Section("樂器", instruments), Section("其他標籤", vartags)];
    assert (forall i :: 0 <= i < |xs| ==> xs[i].None?) <==> xs[0].None? && xs[1].None? && xs[2].None?;
    Present(xs)
  }

  /** `tags_display`: the sections joined by `<br>`, or "無標籤信息" when no field holds tags. */
  function TagsDisplay(genres: string, instruments: string, vartags: string): (s: string)
    ensures s == NoTags <==> (TrackModel.TagList(genres) == [] && TrackModel.TagList(instruments) == []
      && TrackModel.TagList(vartags) == [])
  {
    var ss := Sections(genres, instruments, vartags);
    if ss == [] then NoTags
    else
      assert Join("<br>", ss)[0] == '<';
      Join("<br>", ss)
  }

  // ---------------------------------------------------------------------
  // Previews

  const AudioOpen: string := "<audio controls style=\"width: 300px;\"><source src=\""
  const AudioClose: string := "\" type=\"audio/mpeg\">你的瀏覽器不支持音頻播放。</audio>"
  const NoAudio: string := "無音頻文件"

  const ImageOpen: string := "<img src=\""
  const ImageClose: string := "\" style=\"width: 100px; height: 100px; object-fit: cover; border-radius: 8px;\"/>"
  const NoImage: string := "無圖片"

  /** `format_html(open + '{}' + close, url)`: the URL is escaped into the attribute. */
  function Embed(open: string, url: string, close: string): string
  {
    open + Html.Escape(url) + close
  }

  /** What a browser reads as the `src` attribute of an embed. */
  function SourceOf(open: string, html: string, close: string): Option<string>
  {
    if |html| >= |open| + |close| && html[..|open|] == open && html[|html| - |close|..] == close then
      Some(Html.Unescape(html[|open|..|html| - |close|]))
    else None
  }

  /** The embedded URL reaches the browser unchanged, and cannot end the attribute early. */
  lemma EmbedSource(open: string, url: string, close: string)
    ensures SourceOf(open, Embed(open, url, close), close) == Some(url)
    ensures '"' !in Html.Escape(url)
  {
    var e := Html.Escape(url);
    var h := open + e + close;
    assert h[..|open|] == open;
    assert h[|h| - |close|..] == close;
    assert h[|open|..|h| - |close|] == e;
    Html.UnescapeEscape(url);
    Html.EscapeIsInert(url);
  }

  /** `audio_preview`. */
  function AudioPreview(audio: string): (s: string)
    ensures audio == "" ==> s == NoAudio
    ensures audio != "" ==> SourceOf(AudioOpen, s, AudioClose) == Some(audio)
  {
    if audio == "" then NoAudio
    else
      EmbedSource(AudioOpen, audio, AudioClose);
      Embed(AudioOpen, audio, AudioClose)
  }

  /** `image_preview`. */
  function ImagePreview(image: string): (s: string)
    ensures image == "" ==> s == NoImage
    ensures image != "" ==> SourceOf(ImageOpen, s, ImageClose) == Some(image)
  {
    if image == "" then NoImage
    else
      EmbedSource(ImageOpen, image, ImageClose);
      Embed(ImageOpen, image, ImageClose)
  }
}
