/**
 * The preferences table behind a preferences-backed DataStore: one map from a
 * key NAME to a value that is either a 32-bit integer or a set of strings.
 * A typed key (`intPreferencesKey`, `stringSetPreferencesKey`) is identified by
 * its name alone, so an integer key and a string-set key with the same name
 * address the same entry; reading an entry through a key of the other type
 * fails with the platform's ClassCastException.
 */
module Preferences {

  /** Kotlin's `Int`. */
  newtype Int32 = x: int | -0x8000_0000 <= x < 0x8000_0000

  const INT32_MIN: Int32 := -0x8000_0000
  const INT32_MAX: Int32 := 0x7fff_ffff

  /** Kotlin's `Int` arithmetic: the exact result reduced to 32-bit two's complement. */
  function Wrap(x: int): (r: Int32)
    ensures (r as int - x) % 0x1_0000_0000 == 0
    ensures INT32_MIN as int <= x <= INT32_MAX as int ==> r as int == x
  {
    ((x + 0x8000_0000) % 0x1_0000_0000 - 0x8000_0000) as Int32
  }

  datatype PrefValue = IntPref(n: Int32) | StringSetPref(items: set<string>)

  /** A snapshot of the whole container, key name to stored value. */
  type Prefs = map<string, PrefValue>

  /** The outcome of code that may throw a ClassCastException on `key`. */
  datatype Result<T> = Ok(value: T) | ClassCast(key: string)

  /** What `preferences[key]` gives for a typed key: null, a value of the key's type, or a clash. */
  datatype Lookup<T> = Missing | Found(value: T) | WrongType

  function GetInt(prefs: Prefs, name: string): (r: Lookup<Int32>)
    ensures r.Missing? <==> name !in prefs
    ensures r.Found? <==> name in prefs && prefs[name].IntPref?
    ensures r.Found? ==> prefs[name] == IntPref(r.value)
  {
    if name !in prefs then Missing
    else match prefs[name]
      case IntPref(n) => Found(n)
      case StringSetPref(_) => WrongType
  }

  function GetStringSet(prefs: Prefs, name: string): (r: Lookup<set<string>>)
    ensures r.Missing? <==> name !in prefs
    ensures r.Found? <==> name in prefs && prefs[name].StringSetPref?
    ensures r.Found? ==> prefs[name] == StringSetPref(r.value)
  {
    if name !in prefs then Missing
    else match prefs[name]
      case StringSetPref(s) => Found(s)
      case IntPref(_) => WrongType
  }

  /**
   * `DataStore.edit`: the transform runs on a mutable copy of the snapshot and
   * its result is committed only if the transform completes; a transform that
   * throws leaves the stored table as it was.
   */
  function Commit(prefs: Prefs, edited: Result<Prefs>): (r: Prefs)
    ensures edited.Ok? ==> r == edited.value
    ensures edited.ClassCast? ==> r == prefs
  {
    match edited
    case Ok(p) => p
    case ClassCast(_) => prefs
  }

  /** What the suspending caller of `edit` sees: completion, or the exception. */
  function Status(edited: Result<Prefs>): Result<()>
  {
    match edited
    case Ok(_) => Ok(())
    case ClassCast(k) => ClassCast(k)
  }
}
