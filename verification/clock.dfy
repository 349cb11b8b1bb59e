/**
 * Clock-face renderings of a number of seconds (`mm:ss` and `hh:mm:ss`), and
 * a reader that turns such text back into seconds, so that each rendering
 * can be checked against what it displays.
 */
module Clock {
  import opened Wrappers
  import opened Decimal

  /**
   * `f"{d // 60:02d}:{d % 60:02d}"`, or "00:00" when the duration is falsy
   * (zero). Python's `//` and `%` floor, which for the positive divisor 60
   * agree with Dafny's Euclidean division.
   */
  function MinutesSeconds(d: int): string
  {
    if d == 0 then "00:00" else Int02(d / 60) + ":" + Int02(d % 60)
  }

  /** Total listening time: `hh:mm:ss` when the hour count is positive, `mm:ss` otherwise. */
  function HoursMinutesSeconds(t: int): string
  {
    var hours := t / 3600;
    var minutes := (t % 3600) / 60;
    var seconds := t % 60;
    if hours > 0 then Int02(hours) + ":" + Int02(minutes) + ":" + Int02(seconds)
    else Int02(minutes) + ":" + Int02(seconds)
  }

  // ---------------------------------------------------------------------
  // Reading clock text back

  /** Position of the first ':' in `s`. */
  function FirstColon(s: string): (i: nat)
    requires ':' in s
    ensures i < |s| && s[i] == ':'
    ensures ':' !in s[..i]
  {
    if s[0] == ':' then 0
    else
      var j := FirstColon(s[1..]);
      assert s[..j + 1] == [s[0]] + s[1..][..j];
      j + 1
  }

  /** The colon-separated fields of `s`, as Python's `s.split(':')`. */
  function Fields(s: string): (parts: seq<string>)
    ensures |parts| >= 1
    decreases |s|
  {
    if ':' !in s then [s]
    else
      var i := FirstColon(s);
      [s[..i]] + Fields(s[i + 1..])
  }

  /** Reads every field as an integer; fails if one is not. */
  function ReadFields(parts: seq<string>): Option<seq<int>>
  {
    if |parts| == 0 then Some([])
    else
      match (ReadInt(parts[0]), ReadFields(parts[1..]))
      case (Some(x), Some(xs)) => Some([x] + xs)
      case _ => None
  }

  /** Base-60 value of the fields, most significant first. */
  function Sexagesimal(xs: seq<int>): int
  {
    if |xs| == 0 then 0 else Sexagesimal(xs[..|xs| - 1]) * 60 + xs[|xs| - 1]
  }

  /** The number of seconds a clock text shows, if it is one. */
  function ReadClock(s: string): Option<int>
  {
    match ReadFields(Fields(s))
    case Some(xs) => Some(Sexagesimal(xs))
    case None => None
  }

  /** Colon-joined `:02d` renderings of the fields, as the format strings produce them. */
  function Render(xs: seq<int>): string
    requires |xs| > 0
  {
    if |xs| == 1 then Int02(xs[0]) else Int02(xs[0]) + ":" + Render(xs[1..])
  }

  function Int02s(xs: seq<int>): (ts: seq<string>)
    ensures |ts| == |xs|
    ensures forall i :: 0 <= i < |xs| ==> ts[i] == Int02(xs[i])
  {
    if |xs| == 0 then [] else [Int02(xs[0])] + Int02s(xs[1..])
  }

  lemma FieldsCons(a: string, b: string)
    requires ':' !in a
    ensures Fields(a + ":" + b) == [a] + Fields(b)
  {
    var s := a + ":" + b;
    assert s[|a|] == ':';
    var i := FirstColon(s);
    assert s[..i] == a;
    assert s[i + 1..] == b;
  }

  lemma {:induction false} FieldsRender(xs: seq<int>)
    requires |xs| > 0
    ensures Fields(Render(xs)) == Int02s(xs)
  {
    if |xs| > 1 {
      FieldsCons(Int02(xs[0]), Render(xs[1..]));
      FieldsRender(xs[1..]);
    }
  }

  lemma {:induction false} ReadInt02s(xs: seq<int>)
    ensures ReadFields(Int02s(xs)) == Some(xs)
  {
    if |xs| > 0 {
      var ts := Int02s(xs);
      assert ts[1..] == Int02s(xs[1..]);
      ReadInt02(xs[0]);
      ReadInt02s(xs[1..]);
      assert [xs[0]] + xs[1..] == xs;
    }
  }

  /** Clock text made of fields reads back as their base-60 value. */
  lemma ReadRender(xs: seq<int>)
    requires |xs| > 0
    ensures ReadClock(Render(xs)) == Some(Sexagesimal(xs))
  {
    FieldsRender(xs);
    ReadInt02s(xs);
  }

  /** The `mm:ss` rendering shows exactly the duration: minutes * 60 + seconds == d. */
  lemma MinutesSecondsReadsBack(d: int)
    ensures ReadClock(MinutesSeconds(d)) == Some(d)
  {
    var xs := if d == 0 then [0, 0] else [d / 60, d % 60];
    assert Render(xs[1..]) == Int02(xs[1]);
    assert MinutesSeconds(d) == Render(xs);
    ReadRender(xs);
    SexagesimalTwo(xs[0], xs[1]);
    assert xs == [xs[0], xs[1]];
  }

  lemma SexagesimalTwo(a: int, b: int)
    ensures Sexagesimal([a, b]) == a * 60 + b
  {
    assert [a, b][..1] == [a];
    assert [a][..0] == [];
    assert Sexagesimal([a]) == Sexagesimal([]) * 60 + a;
  }

  lemma SexagesimalThree(a: int, b: int, c: int)
    ensures Sexagesimal([a, b, c]) == (a * 60 + b) * 60 + c
  {
    assert [a, b, c][..2] == [a, b];
    SexagesimalTwo(a, b);
  }

  /**
   * The fields of the total-listening-time rendering recombine to the total;
   * a negative total has no positive hour count and shows only its remainder
   * modulo one hour.
   */
  lemma HoursMinutesSecondsReadsBack(t: int)
    ensures ReadClock(HoursMinutesSeconds(t)) == Some(if t >= 0 then t else t % 3600)
    ensures |Fields(HoursMinutesSeconds(t))| == if t >= 3600 then 3 else 2
  {
    var h := t / 3600;
    var m := (t % 3600) / 60;
    var s := t % 60;
    HourSplit(t);
    if h > 0 {
      var xs := [h, m, s];
      RenderThree(h, m, s);
      SexagesimalThree(h, m, s);
      assert HoursMinutesSeconds(t) == Render(xs);
      ReadRender(xs);
      FieldsRender(xs);
      assert Sexagesimal(xs) == t;
    } else {
      var xs := [m, s];
      RenderTwo(m, s);
      SexagesimalTwo(m, s);
      assert HoursMinutesSeconds(t) == Render(xs);
      ReadRender(xs);
      FieldsRender(xs);
      assert Sexagesimal(xs) == if t >= 0 then t else t % 3600;
    }
  }

  lemma RenderTwo(a: int, b: int)
    ensures Render([a, b]) == Int02(a) + ":" + Int02(b)
  {
    assert [a, b][1..] == [b];
  }

  lemma RenderThree(a: int, b: int, c: int)
    ensures Render([a, b, c]) == Int02(a) + ":" + Int02(b) + ":" + Int02(c)
  {
    assert [a, b, c][1..] == [b, c];
    RenderTwo(b, c);
  }

  lemma HourSplit(t: int)
    ensures t == (t / 3600) * 3600 + ((t % 3600) / 60) * 60 + t % 60
    ensures t / 3600 > 0 <==> t >= 3600
    ensures t >= 0 && t / 3600 <= 0 ==> (t % 3600) / 60 * 60 + t % 60 == t
    ensures t < 0 ==> t / 3600 < 0 && (t % 3600) / 60 * 60 + t % 60 == t % 3600
  {
    var r := t % 3600;
    assert t % 60 == r % 60;
  }
}
