/**
 * `SystemSettings`: a key/value table of text settings. Values are stored
 * as Python's `str(value)`.
 */
module SettingsStore {
  import opened Wrappers
  import opened Decimal

  /** The Python values a setting is written from. */
  datatype PyValue = Text(s: string) | Integer(i: int) | Boolean(b: bool) | NoneValue

  datatype Setting = Setting(value: string, description: string)

  type Store = map<string, Setting>

  /** Python's `str(v)`. */
  function Str(v: PyValue): string
  {
    match v
    case Text(s) => s
    case Integer(i) => IntText(i)
    case Boolean(b) => if b then "True" else "False"
    case NoneValue => "None"
  }

  /** `get_setting(key, default)`: the stored text, or the default when the key is absent. */
  function Get(st: Store, key: string, default: Option<string>): (r: Option<string>)
    ensures key in st ==> r == Some(st[key].value)
    ensures key !in st ==> r == default
  {
    if key in st then Some(st[key].value) else default
  }

  /** `set_setting(key, value, description)`: `update_or_create` with `str(value)`. */
  function Set(st: Store, key: string, value: PyValue, description: string): (r: Store)
    ensures key in r && r[key] == Setting(Str(value), description)
    ensures r.Keys == st.Keys + {key}
    ensures forall k :: k in st && k != key ==> r[k] == st[k]
  {
    st[key := Setting(Str(value), description)]
  }

  /** After a set, get returns the text of the value whatever the default. */
  lemma GetAfterSet(st: Store, key: string, value: PyValue, description: string, default: Option<string>)
    ensures Get(Set(st, key, value, description), key, default) == Some(Str(value))
  {
  }

  /** An integer setting reads back as the same integer through `int()`. */
  lemma IntSettingReadsBack(st: Store, key: string, i: int, description: string)
    ensures PyInt(Get(Set(st, key, Integer(i), description), key, None).value) == Some(i)
  {
    PyIntShow(i, 0, 0);
    assert Spaces(0) + IntText(i) + Spaces(0) == IntText(i);
  }

  /** Other keys keep their values. */
  lemma GetOtherAfterSet(st: Store, key: string, other: string, value: PyValue, description: string, default: Option<string>)
    requires other != key
    ensures Get(Set(st, key, value, description), other, default) == Get(st, other, default)
  {
  }
}
