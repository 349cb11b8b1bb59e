/**
 * The cached Jamendo track record (`JamendoTrack`): its tag fields, which
 * hold JSON text of string lists, the combined tag list, the release date
 * read with `strptime(..., '%Y-%m-%d')`, and the constructor from an API
 * result with its required keys and defaults.
 */
module TrackModel {
  import opened Wrappers
  import opened Decimal
  import opened Json

  // ---------------------------------------------------------------------
  // Tag fields

  /** `set_genres` / `set_instruments` / `set_vartags`: `json.dumps(tags) if tags else ''`. */
  function TagText(tags: seq<string>): (text: string)
    ensures text == "" <==> tags == []
  {
    if tags == [] then "" else DumpStrings(tags)
  }

  /**
   * `genres_list` / `instruments_list` / `vartags_list`: the decoded list, or
   * the empty list for empty or malformed text.
   */
  function TagList(text: string): (tags: seq<string>)
    ensures text == "" ==> tags == []
    // Tags are read only from the exact text a setter writes for them.
    ensures tags != [] ==> TagText(tags) == text
  {
    if text == "" then []
    else
      match LoadStrings(text)
      case Some(xs) => DumpLoadStrings(text); xs
      case None => []
  }

  /** What a setter stores, the matching getter gives back. */
  lemma TagRoundTrip(tags: seq<string>)
    ensures TagList(TagText(tags)) == tags
  {
    if tags != [] {
      LoadDumpStrings(tags);
    }
  }

  /** No element occurs twice. */
  predicate Distinct(xs: seq<string>)
  {
    forall i, j :: 0 <= i < j < |xs| ==> xs[i] != xs[j]
  }

  /** The elements of `xs` without repeats, each at its first occurrence. */
  function Dedup(xs: seq<string>): (r: seq<string>)
    ensures Distinct(r)
    ensures forall x :: x in r <==> x in xs
    ensures |r| <= |xs|
  {
    if xs == [] then []
    else
      var front := Dedup(xs[..|xs| - 1]);
      var last := xs[|xs| - 1];
      assert forall x :: x in xs <==> x in xs[..|xs| - 1] || x == last by {
        assert xs == xs[..|xs| - 1] + [last];
      }
      if last in front then front else front + [last]
  }

  /**
   * `all_tags`: the tags of the three lists, each once. Python builds it
   * through a `set`, so its order is unspecified; this model keeps first
   * occurrences in list order.
   */
  function AllTags(genres: string, instruments: string, vartags: string): (tags: seq<string>)
    ensures Distinct(tags)
    ensures forall t :: t in tags <==>
      t in TagList(genres) || t in TagList(instruments) || t in TagList(vartags)
  {
    Dedup(TagList(genres) + TagList(instruments) + TagList(vartags))
  }

  // ---------------------------------------------------------------------
  // Release dates

  datatype Date = Date(year: int, month: int, day: int)

  predicate IsLeap(y: int)
  {
    y % 4 == 0 && (y % 100 != 0 || y % 400 == 0)
  }

  function DaysInMonth(y: int, m: int): int
    requires 1 <= m <= 12
  {
    if m == 2 then (if IsLeap(y) then 29 else 28)
    else if m == 4 || m == 6 || m == 9 || m == 11 then 30
    else 31
  }

  /** A date `datetime.date` accepts (years 1 to 9999). */
  predicate ValidDate(d: Date)
  {
    1 <= d.year <= 9999 && 1 <= d.month <= 12 && 1 <= d.day <= DaysInMonth(d.year, d.month)
  }

  /** `%m`: `1[0-2]`, `0[1-9]` or a single `[1-9]`, with nothing else. */
  function MonthField(t: string): (m: Option<int>)
    ensures m.Some? ==> 1 <= m.value <= 12
  {
    if |t| == 1 && '1' <= t[0] <= '9' then Some(DigitValue(t[0]))
    else if |t| == 2 && t[0] == '0' && '1' <= t[1] <= '9' then Some(DigitValue(t[1]))
    else if |t| == 2 && t[0] == '1' && '0' <= t[1] <= '2' then Some(10 + DigitValue(t[1]))
    else None
  }

  /** `%d`: `3[01]`, `[12][0-9]`, `0[1-9]`, a single `[1-9]`, or a space and `[1-9]`. */
  function DayField(t: string): (d: Option<int>)
    ensures d.Some? ==> 1 <= d.value <= 31
  {
    if |t| == 1 && '1' <= t[0] <= '9' then Some(DigitValue(t[0]))
    else if |t| == 2 && (t[0] == '0' || t[0] == ' ') && '1' <= t[1] <= '9' then Some(DigitValue(t[1]))
    else if |t| == 2 && '1' <= t[0] <= '2' && IsDigit(t[1]) then Some(DigitValue(t[0]) * 10 + DigitValue(t[1]))
    else if |t| == 2 && t[0] == '3' && '0' <= t[1] <= '1' then Some(30 + DigitValue(t[1]))
    else None
  }

  /** `%Y`: exactly four digits. */
  function YearField(t: string): (y: Option<int>)
    ensures y.Some? ==> 0 <= y.value <= 9999
  {
    if |t| == 4 && AllDigits(t) then
      Some(((DigitValue(t[0]) * 10 + DigitValue(t[1])) * 10 + DigitValue(t[2])) * 10 + DigitValue(t[3]))
    else None
  }

  /**
   * `datetime.strptime(s, '%Y-%m-%d').date()`, `None` where it raises
   * `ValueError`: the whole text must match, and the date must exist.
   */
  function ParseDate(s: string): (r: Option<Date>)
    ensures r.Some? ==> ValidDate(r.value)
  {
    if |s| < 8 || s[4] != '-' then None
    else
      var rest := s[5..];
      var cut := if rest[1] == '-' then 1 else if rest[2] == '-' then 2 else 0;
      if cut == 0 then None
      else
        match (YearField(s[..4]), MonthField(rest[..cut]), DayField(rest[cut + 1..]))
        case (Some(y), Some(m), Some(d)) =>
          var date := Date(y, m, d);
          if ValidDate(date) then Some(date) else None
        case _ => None
  }

  function Pad2(n: int): (t: string)
    requires 0 <= n < 100
    ensures |t| == 2 && AllDigits(t)
  {
    [DigitChar(n / 10), DigitChar(n % 10)]
  }

  /** `date.isoformat()`: `YYYY-MM-DD`. */
  function DateText(d: Date): (t: string)
    requires ValidDate(d)
    ensures |t| == 10
  {
    Pad2(d.year / 100) + Pad2(d.year % 100) + "-" + Pad2(d.month) + "-" + Pad2(d.day)
  }

  lemma Pad2Value(n: int)
    requires 0 <= n < 100
    ensures DigitValue(Pad2(n)[0]) * 10 + DigitValue(Pad2(n)[1]) == n
  {
  }

  /** Every date reads back from its ISO text. */
  lemma ParseDateText(d: Date)
    requires ValidDate(d)
    ensures ParseDate(DateText(d)) == Some(d)
  {
    var s := DateText(d);
    var yt, mt, dt := Pad2(d.year / 100) + Pad2(d.year % 100), Pad2(d.month), Pad2(d.day);
    assert s == yt + "-" + mt + "-" + dt;
    assert s[..4] == yt;
    var rest := s[5..];
    assert rest == mt + "-" + dt;
    assert rest[1] != '-' && rest[2] == '-';
    assert rest[..2] == mt && rest[3..] == dt;
    YearText(d.year);
    Pad2Value(d.month);
    Pad2Value(d.day);
    assert MonthField(mt) == Some(d.month) && DayField(dt) == Some(d.day);
  }

  lemma YearText(y: int)
    requires 0 <= y < 10000
    ensures YearField(Pad2(y / 100) + Pad2(y % 100)) == Some(y)
  {
    var t := Pad2(y / 100) + Pad2(y % 100);
    Pad2Value(y / 100);
    Pad2Value(y % 100);
    assert t[0] == Pad2(y / 100)[0] && t[1] == Pad2(y / 100)[1];
    assert t[2] == Pad2(y % 100)[0] && t[3] == Pad2(y % 100)[1];
  }

  // ---------------------------------------------------------------------
  // The record and its constructor

  /**
   * A `JamendoTrack` before it is saved. Django does not check field types
   * until then, so the fields copied from the API keep their JSON values.
   */
  datatype Track = Track(
    jamendoId: Json,
    name: Json,
    artistName: Json,
    artistId: Json,
    albumName: Json,
    albumId: Json,
    duration: Json,
    position: Json,
    audio: Json,
    audioDownload: Json,
    image: Json,
    albumImage: Json,
    downloadsTotal: Json,
    playlisted: Json,
    genres: string,
    instruments: string,
    vartags: string,
    releaseDate: Option<Date>)

  datatype CreateError =
    /** `ValueError`: a required key is missing (the `KeyError` is re-raised as this). */
    | MissingField(key: string)
    /** `AttributeError`: a value used with `.get` is not a JSON object. */
    | NotAnObject(key: string)
    /** A truthy tag value that is not a list of strings (outside this model). */
    | UnsupportedTags(key: string)

  /** The keys read with `[]`, in the order the constructor evaluates them. */
  const RequiredKeys: seq<string> :=
    ["id", "name", "artist_name", "artist_id", "duration", "audio", "audiodownload"]

  /** The first of `keys` that `data` lacks: the `KeyError` the constructor raises first. */
  function FirstMissing(data: map<string, Json>, keys: seq<string>): (r: Option<string>)
    ensures r.None? <==> forall k :: k in keys ==> k in data
    ensures r.Some? ==> r.value in keys && r.value !in data
    ensures r.Some? ==> exists i :: 0 <= i < |keys| && keys[i] == r.value && forall j :: 0 <= j < i ==> keys[j] in data
  {
    if keys == [] then None
    else if keys[0] !in data then
      Some(keys[0])
    else
      var r := FirstMissing(data, keys[1..]);
      if r.Some? then
        var i :| 0 <= i < |keys[1..]| && keys[1..][i] == r.value && forall j :: 0 <= j < i ==> keys[1..][j] in data;
        assert keys[i + 1] == r.value && forall j :: 0 <= j < i + 1 ==> keys[j] in data;
        r
      else r
  }

  /** `data.get(key, {})` where the result is then used with `.get`. */
  function SubObject(data: map<string, Json>, key: string): (r: Result<map<string, Json>, CreateError>)
    ensures r.Success? <==> key !in data || data[key].Obj?
    ensures r.Success? ==> r.value == if key in data then data[key].fields else map[]
    ensures r.Failure? ==> r.error == NotAnObject(key)
  {
    if key !in data then Success(map[])
    else if data[key].Obj? then Success(data[key].fields)
    else Failure(NotAnObject(key))
  }

  /** The strings of a JSON list of strings. */
  function StringItems(j: Json): (r: Option<seq<string>>)
    ensures r.Some? ==> j.Arr? && |r.value| == |j.items|
    ensures r.Some? ==> forall i :: 0 <= i < |j.items| ==> j.items[i] == Str(r.value[i])
  {
    if !j.Arr? then None
    else if forall i :: 0 <= i < |j.items| ==> j.items[i].Str? then
      Some(seq(|j.items|, i requires 0 <= i < |j.items| => j.items[i].s))
    else None
  }

  /** `track.set_genres(tags.get(key, []))` and its siblings. */
  function TagField(tags: map<string, Json>, key: string): (r: Result<string, CreateError>)
    ensures r.Success? && key in tags && StringItems(tags[key]).Some? ==>
      r.value == TagText(StringItems(tags[key]).value)
    ensures r.Success? && (key !in tags || !Truthy(tags[key])) ==> r.value == ""
    ensures r.Failure? <==> key in tags && Truthy(tags[key]) && StringItems(tags[key]).None?
  {
    if key !in tags || !Truthy(tags[key]) then Success("")
    else
      match StringItems(tags[key])
      case Some(xs) => Success(TagText(xs))
      case None => Failure(UnsupportedTags(key))
  }

  /** The release date when `data.get('releasedate')` is truthy and parses; otherwise none. */
  function ReleaseDate(data: map<string, Json>): (d: Option<Date>)
    ensures d.Some? ==> "releasedate" in data && data["releasedate"].Str? && ParseDate(data["releasedate"].s) == d
    ensures "releasedate" in data && data["releasedate"].Str? && data["releasedate"].s != "" ==>
      d == ParseDate(data["releasedate"].s)
  {
    if "releasedate" in data && data["releasedate"].Str? && data["releasedate"].s != "" then
      ParseDate(data["releasedate"].s)
    else None
  }

  /** All objects the constructor reads with `.get` are objects (or absent). */
  predicate WellShaped(data: map<string, Json>)
  {
    (("musicinfo" !in data) || data["musicinfo"].Obj?)
    && (("stats" !in data) || data["stats"].Obj?)
    && var info := if "musicinfo" in data then data["musicinfo"].fields else map[];
    (("tags" !in info) || info["tags"].Obj?)
  }

  /**
   * `JamendoTrack.create_from_jamendo_data`: a track, or the exception it
   * raises. `musicinfo.get('tags', {})` runs before any required key is
   * read, and the required keys are read in argument order.
   */
  function CreateTrack(data: map<string, Json>): (r: Result<Track, CreateError>)
    ensures SubObject(data, "musicinfo").Failure? ==> r == Failure(NotAnObject("musicinfo"))
    ensures SubObject(data, "musicinfo").Success? && FirstMissing(data, RequiredKeys).Some? ==>
      r == Failure(MissingField(FirstMissing(data, RequiredKeys).value))
    ensures r.Failure? && r.error.MissingField? ==> r.error.key in RequiredKeys && r.error.key !in data
    ensures (forall k :: k in RequiredKeys ==> k in data) && WellShaped(data) && r.Failure? ==>
      r.error.UnsupportedTags?
    ensures r.Success? ==> WellShaped(data) && forall k :: k in RequiredKeys ==> k in data
    ensures (SubObject(data, "musicinfo").Success? && forall k :: k in RequiredKeys ==> k in data) ==>
      r == Construct(data)
  {
    var info :- SubObject(data, "musicinfo");
    if FirstMissing(data, RequiredKeys).Some? then Failure(MissingField(FirstMissing(data, RequiredKeys).value))
    else Construct(data)
  }

  /**
   * The constructor call and the setters once `musicinfo` is usable and every
   * required key is present: every field is copied, with the defaults of the
   * `.get` calls, unless `stats` or `tags` is not an object or a tag value is
   * not a list of strings.
   */
  function Construct(data: map<string, Json>): (r: Result<Track, CreateError>)
    requires SubObject(data, "musicinfo").Success?
    requires forall k :: k in RequiredKeys ==> k in data
    ensures WellShaped(data) && r.Failure? ==> r.error.UnsupportedTags?
    ensures r.Success? ==> WellShaped(data)
    ensures r.Success? ==>
      r.value.jamendoId == data["id"] && r.value.name == data["name"]
      && r.value.artistName == data["artist_name"] && r.value.artistId == data["artist_id"]
      && r.value.duration == data["duration"]
      && r.value.audio == data["audio"] && r.value.audioDownload == data["audiodownload"]
    ensures r.Success? ==>
      r.value.albumName == GetOr(data, "album_name", Str(""))
      && r.value.albumId == GetOr(data, "album_id", Null)
      && r.value.position == GetOr(data, "position", Num(1))
      && r.value.image == GetOr(data, "image", Str(""))
      && r.value.albumImage == GetOr(data, "album_image", Str(""))
    ensures r.Success? ==>
      var stats := if "stats" in data then data["stats"].fields else map[];
      r.value.downloadsTotal == GetOr(stats, "downloads_total", Num(0))
      && r.value.playlisted == GetOr(stats, "playlisted", Num(0))
    ensures r.Success? ==> r.value.releaseDate == ReleaseDate(data)
    ensures r.Success? ==>
      var info := if "musicinfo" in data then data["musicinfo"].fields else map[];
      var tags := if "tags" in info then info["tags"].fields else map[];
      TagField(tags, "genres") == Success(r.value.genres)
      && TagField(tags, "instruments") == Success(r.value.instruments)
      && TagField(tags, "vartags") == Success(r.value.vartags)
  {
    var info := SubObject(data, "musicinfo").value;
    var stats :- SubObject(data, "stats");
    var tags :- SubObject(info, "tags");
    var genres :- TagField(tags, "genres");
    var instruments :- TagField(tags, "instruments");
    var vartags :- TagField(tags, "vartags");
    Success(Build(data, stats, genres, instruments, vartags))
  }

  /** The constructor call once every required key is present. */
  function Build(data: map<string, Json>, stats: map<string, Json>,
                 genres: string, instruments: string, vartags: string): Track
    requires forall k :: k in RequiredKeys ==> k in data
  {
    Track(
      data["id"], data["name"], data["artist_name"], data["artist_id"],
      GetOr(data, "album_name", Str("")), GetOr(data, "album_id", Null),
      data["duration"], GetOr(data, "position", Num(1)),
      data["audio"], data["audiodownload"],
      GetOr(data, "image", Str("")), GetOr(data, "album_image", Str("")),
      GetOr(stats, "downloads_total", Num(0)), GetOr(stats, "playlisted", Num(0)),
      genres, instruments, vartags,
      ReleaseDate(data))
  }

  /** A tag list given to the constructor reads back from the stored field. */
  lemma TagFieldRoundTrip(tags: map<string, Json>, key: string, xs: seq<string>)
    requires key in tags && StringItems(tags[key]) == Some(xs)
    ensures TagField(tags, key).Success?
    ensures TagList(TagField(tags, key).value) == xs
  {
    TagRoundTrip(xs);
    if xs == [] {
      assert !Truthy(tags[key]);
    }
  }
}
