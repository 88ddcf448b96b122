/** The watch face's private preferences file as an in-memory key/value store.

    The engine keeps the last weather triple under three keys: two strings for
    the temperatures and a long for the weather code. Reading a key with the
    wrong accessor (a string read of a long entry) throws in the host, which the
    model reports as None. */
module Preferences {
  import opened Wrappers

  datatype PrefValue = StringPref(s: string) | LongPref(n: int)

  type Store = map<string, PrefValue>

  const TempHighKey: string := "pref_temp_high"
  const TempLowKey: string := "pref_temp_low"
  const WeatherIconIdKey: string := "pref_weather_icon_id"

  /** The weather triple the engine displays and persists. */
  datatype Weather = Weather(high: string, low: string, code: int)

  /** What the engine shows before any weather was ever stored. */
  const DefaultWeather := Weather("", "", 0)

  /** `getString(key, default)`: the default when the key is absent, None when
      the entry holds a long. */
  function GetString(store: Store, key: string, default: string): (r: Option<string>)
    ensures key !in store ==> r == Some(default)
    ensures key in store ==> (r.Some? <==> store[key].StringPref?)
    ensures r.Some? && key in store ==> store[key] == StringPref(r.value)
  {
    if key !in store then Some(default)
    else match store[key]
      case StringPref(s) => Some(s)
      case LongPref(_) => None
  }

  /** `getLong(key, default)`: the default when the key is absent, None when
      the entry holds a string. */
  function GetLong(store: Store, key: string, default: int): (r: Option<int>)
    ensures key !in store ==> r == Some(default)
    ensures key in store ==> (r.Some? <==> store[key].LongPref?)
    ensures r.Some? && key in store ==> store[key] == LongPref(r.value)
  {
    if key !in store then Some(default)
    else match store[key]
      case LongPref(n) => Some(n)
      case StringPref(_) => None
  }

  /** The startup read: low, high and code with defaults "", "" and 0. */
  function ReadWeather(store: Store): (r: Option<Weather>)
    ensures r.None? <==> (TempLowKey in store && store[TempLowKey].LongPref?)
                         || (TempHighKey in store && store[TempHighKey].LongPref?)
                         || (WeatherIconIdKey in store && store[WeatherIconIdKey].StringPref?)
    ensures r.Some? ==> (TempLowKey in store ==> store[TempLowKey] == StringPref(r.value.low))
                        && (TempLowKey !in store ==> r.value.low == "")
    ensures r.Some? ==> (TempHighKey in store ==> store[TempHighKey] == StringPref(r.value.high))
                        && (TempHighKey !in store ==> r.value.high == "")
    ensures r.Some? ==> (WeatherIconIdKey in store ==> store[WeatherIconIdKey] == LongPref(r.value.code))
                        && (WeatherIconIdKey !in store ==> r.value.code == 0)
  {
    match (GetString(store, TempLowKey, ""), GetString(store, TempHighKey, ""), GetLong(store, WeatherIconIdKey, 0))
    case (Some(low), Some(high), Some(code)) => Some(Weather(high, low, code))
    case _ => None
  }

  /** The editor transaction: the three values are put under their keys and
      nothing else in the store changes. */
  function PutWeather(store: Store, w: Weather): (r: Store)
    ensures r.Keys == store.Keys + {TempLowKey, TempHighKey, WeatherIconIdKey}
    ensures r[TempLowKey] == StringPref(w.low)
    ensures r[TempHighKey] == StringPref(w.high)
    ensures r[WeatherIconIdKey] == LongPref(w.code)
    ensures forall k :: k in store && k !in {TempLowKey, TempHighKey, WeatherIconIdKey} ==> r[k] == store[k]
  {
    store[TempLowKey := StringPref(w.low)][TempHighKey := StringPref(w.high)][WeatherIconIdKey := LongPref(w.code)]
  }

  /** An empty store reads as the defaults. */
  lemma ReadEmptyStore()
    ensures ReadWeather(map[]) == Some(DefaultWeather)
  {
  }

  /** What was put is what a later startup read returns, whatever the store held. */
  lemma ReadAfterPut(store: Store, w: Weather)
    ensures ReadWeather(PutWeather(store, w)) == Some(w)
  {
  }

  /** A second put overwrites the first completely (no merge). */
  lemma PutOverwrites(store: Store, w1: Weather, w2: Weather)
    ensures PutWeather(PutWeather(store, w1), w2) == PutWeather(store, w2)
  {
  }
}
