/**
 * Decoded JSON values, Python's truthiness on them, and the text of JSON
 * strings and arrays of strings as `json.dumps` writes them, together with a
 * reader that accepts exactly that text.
 */
module Json {
  import opened Wrappers

  /** A decoded JSON value. Numbers are integers: floating point is not modelled. */
  datatype Json =
    | Null
    | Bool(b: bool)
    | Num(n: int)
    | Str(s: string)
    | Arr(items: seq<Json>)
    | Obj(fields: map<string, Json>)

  /**
   * A request or response body as `json.loads` / `response.json()` sees it:
   * a value, or text it rejects with the given error message.
   */
  datatype Body = Parsed(json: Json) | Unparsable(message: string)

  /** Python's name for the type of a decoded value, as error messages show it. */
  function TypeName(j: Json): string
  {
    match j
    case Null => "NoneType"
    case Bool(_) => "bool"
    case Num(_) => "int"
    case Str(_) => "str"
    case Arr(_) => "list"
    case Obj(_) => "dict"
  }

  /** Python's `bool(x)` (and JavaScript's for these shapes, except that `{}` and `[]` are truthy there). */
  predicate Truthy(j: Json)
  {
    match j
    case Null => false
    case Bool(b) => b
    case Num(n) => n != 0
    case Str(s) => |s| > 0
    case Arr(a) => |a| > 0
    case Obj(m) => |m| > 0
  }

  /** Python's `d.get(k, default)`. */
  function GetOr(m: map<string, Json>, k: string, default: Json): (v: Json)
    ensures k in m ==> v == m[k]
    ensures k !in m ==> v == default
  {
    if k in m then m[k] else default
  }

  /** Python's `d.get(k)`: `None` for a missing key. */
  function Get(m: map<string, Json>, k: string): Json
  {
    GetOr(m, k, Null)
  }

  // ---------------------------------------------------------------------
  // Strings

  /** The escape `json.dumps` writes for one character (quote and backslash; see README for the rest). */
  function EscapeChar(c: char): string
  {
    if c == '"' then "\\\"" else if c == '\\' then "\\\\" else [c]
  }

  function Escape(s: string): string
  {
    if |s| == 0 then "" else EscapeChar(s[0]) + Escape(s[1..])
  }

  /** The JSON literal of a string. */
  function Quote(s: string): string
  {
    "\"" + Escape(s) + "\""
  }

  /**
   * Reads the inside of a string literal up to its closing quote, giving the
   * text and what follows the quote.
   */
  function ReadBody(s: string): (r: Option<(string, string)>)
    ensures r.Some? ==> |r.value.1| < |s|
    decreases |s|
  {
    if |s| == 0 then None
    else if s[0] == '"' then Some(("", s[1..]))
    else if s[0] == '\\' then
      if |s| >= 2 && (s[1] == '"' || s[1] == '\\') then
        match ReadBody(s[2..])
        case Some((t, rest)) => Some(([s[1]] + t, rest))
        case None => None
      else None
    else
      match ReadBody(s[1..])
      case Some((t, rest)) => Some(([s[0]] + t, rest))
      case None => None
  }

  lemma {:induction false} ReadEscaped(x: string, rest: string)
    ensures ReadBody(Escape(x) + "\"" + rest) == Some((x, rest))
  {
    if |x| == 0 {
      assert Escape(x) + "\"" + rest == "\"" + rest;
    } else {
      var tail := Escape(x[1..]) + "\"" + rest;
      assert Escape(x) + "\"" + rest == EscapeChar(x[0]) + tail;
      ReadEscaped(x[1..], rest);
      if x[0] == '"' || x[0] == '\\' {
        assert (EscapeChar(x[0]) + tail)[2..] == tail;
      } else {
        assert (EscapeChar(x[0]) + tail)[1..] == tail;
      }
      assert [x[0]] + x[1..] == x;
    }
  }

  // ---------------------------------------------------------------------
  // Arrays of strings

  /** The items of a JSON array of strings, separated as `json.dumps` separates them. */
  function Items(xs: seq<string>): string
  {
    if |xs| == 0 then ""
    else if |xs| == 1 then Quote(xs[0])
    else Quote(xs[0]) + ", " + Items(xs[1..])
  }

  /** `json.dumps(xs)` for a list of strings. */
  function DumpStrings(xs: seq<string>): string
  {
    "[" + Items(xs) + "]"
  }

  /** Reads `"a", "b"]`: one or more string literals up to the closing bracket. */
  function ReadItems(s: string): Option<seq<string>>
    decreases |s|, 0
  {
    if |s| == 0 || s[0] != '"' then None
    else
      match ReadBody(s[1..])
      case None => None
      case Some((x, rest)) => ReadItemsAfter(x, rest)
  }

  /** Continues `ReadItems` after the literal `x`, with `rest` following its closing quote. */
  function ReadItemsAfter(x: string, rest: string): Option<seq<string>>
    decreases |rest|, 1
  {
    if rest == "]" then Some([x])
    else if |rest| >= 2 && rest[..2] == ", " then
      match ReadItems(rest[2..])
      case Some(xs) => Some([x] + xs)
      case None => None
    else None
  }

  /** `json.loads` on text that should hold an array of strings; `None` when it does not. */
  function LoadStrings(s: string): Option<seq<string>>
  {
    if s == "[]" then Some([])
    else if |s| > 0 && s[0] == '[' then ReadItems(s[1..])
    else None
  }

  lemma ReadOneItem(x: string, rest: string)
    ensures ReadItems(Quote(x) + rest) == ReadItemsAfter(x, rest)
  {
    assert (Quote(x) + rest)[1..] == Escape(x) + "\"" + rest;
    ReadEscaped(x, rest);
  }

  lemma {:induction false} ReadItemsBack(xs: seq<string>)
    requires |xs| > 0
    ensures ReadItems(Items(xs) + "]") == Some(xs)
  {
    var x := xs[0];
    if |xs| == 1 {
      ReadOneItem(x, "]");
      assert xs == [x];
    } else {
      var after := ", " + Items(xs[1..]) + "]";
      assert Items(xs) + "]" == Quote(x) + after;
      ReadOneItem(x, after);
      assert after[..2] == ", " && after != "]";
      assert after[2..] == Items(xs[1..]) + "]";
      ReadItemsBack(xs[1..]);
      assert ReadItemsAfter(x, after) == Some([x] + xs[1..]);
      assert [x] + xs[1..] == xs;
    }
  }

  /** `json.loads(json.dumps(xs)) == xs` for every list of strings. */
  lemma LoadDumpStrings(xs: seq<string>)
    ensures LoadStrings(DumpStrings(xs)) == Some(xs)
  {
    if |xs| > 0 {
      assert DumpStrings(xs)[1..] == Items(xs) + "]";
      ReadItemsBack(xs);
      assert DumpStrings(xs) != "[]" by {
        assert DumpStrings(xs)[1] == '"';
      }
    }
  }

  /** What the string reader accepts is the escaped text of what it returns, then the closing quote. */
  lemma {:induction false} ReadBodyText(s: string)
    requires ReadBody(s).Some?
    ensures s == Escape(ReadBody(s).value.0) + "\"" + ReadBody(s).value.1
    decreases |s|
  {
    var (t, rest) := ReadBody(s).value;
    if s[0] == '"' {
      assert t == "" && rest == s[1..];
    } else if s[0] == '\\' {
      var (u, _) := ReadBody(s[2..]).value;
      ReadBodyText(s[2..]);
      assert t == [s[1]] + u && t[1..] == u;
      assert EscapeChar(s[1]) == s[..2];
      assert s == s[..2] + s[2..];
    } else {
      var (u, _) := ReadBody(s[1..]).value;
      ReadBodyText(s[1..]);
      assert t == [s[0]] + u && t[1..] == u;
      assert s == [s[0]] + s[1..];
    }
  }

  /** What the item reader accepts is the separated items of what it returns, then the closing bracket. */
  lemma {:induction false} ReadItemsText(s: string)
    requires ReadItems(s).Some?
    ensures |ReadItems(s).value| > 0 && s == Items(ReadItems(s).value) + "]"
    decreases |s|, 0
  {
    var (x, rest) := ReadBody(s[1..]).value;
    ReadBodyText(s[1..]);
    assert s == Quote(x) + rest by {
      assert s == [s[0]] + s[1..];
    }
    assert ReadItems(s) == ReadItemsAfter(x, rest);
    ReadItemsAfterText(x, rest);
  }

  lemma {:induction false} ReadItemsAfterText(x: string, rest: string)
    requires ReadItemsAfter(x, rest).Some?
    ensures |ReadItemsAfter(x, rest).value| > 0 && Quote(x) + rest == Items(ReadItemsAfter(x, rest).value) + "]"
    decreases |rest|, 1
  {
    var xs := ReadItemsAfter(x, rest).value;
    if rest == "]" {
      assert xs == [x];
    } else {
      var ys := ReadItems(rest[2..]).value;
      ReadItemsText(rest[2..]);
      assert xs == [x] + ys && xs[1..] == ys;
      assert Items(xs) == Quote(x) + ", " + Items(ys);
      assert rest == ", " + rest[2..];
    }
  }

  /** The reader accepts nothing but `json.dumps`' own text: what it reads, dumping writes back exactly. */
  lemma DumpLoadStrings(s: string)
    requires LoadStrings(s).Some?
    ensures DumpStrings(LoadStrings(s).value) == s
  {
    if s != "[]" {
      ReadItemsText(s[1..]);
      assert s == [s[0]] + s[1..];
    }
  }
}
