/**
 The platform's key-value preference store (MAUI `Preferences`): one store for the
 whole process, holding booleans and strings under string keys.
 */
module Preferences {

  /** A stored value; the store keeps each value with its type. */
  datatype Pref = BoolPref(b: bool) | StringPref(s: string)

  /**
   What a typed read gives: a value, or a fault when the key holds a value of the
   other type. The fault is an assumption of this model: platform back ends differ
   on such a read, and some of them throw.
   */
  datatype Read<T> = Ok(value: T) | Fault

  /** `Preferences.Get(key, default)` for a bool key. */
  function ReadBool(m: map<string, Pref>, key: string, default: bool): (r: Read<bool>)
    ensures key !in m ==> r == Ok(default)
    ensures key in m ==> (r.Ok? <==> m[key].BoolPref?)
    ensures r.Ok? && key in m ==> m[key] == BoolPref(r.value)
  {
    if key !in m then Ok(default)
    else match m[key]
      case BoolPref(b) => Ok(b)
      case StringPref(_) => Fault
  }

  /** `Preferences.Get(key, default)` for a string key. */
  function ReadString(m: map<string, Pref>, key: string, default: string): (r: Read<string>)
    ensures key !in m ==> r == Ok(default)
    ensures key in m ==> (r.Ok? <==> m[key].StringPref?)
    ensures r.Ok? && key in m ==> m[key] == StringPref(r.value)
  {
    if key !in m then Ok(default)
    else match m[key]
      case StringPref(s) => Ok(s)
      case BoolPref(_) => Fault
  }

  class PreferenceStore {
    var entries: map<string, Pref>

    constructor (entries: map<string, Pref>)
      ensures this.entries == entries
    {
      this.entries := entries;
    }

    /** `Preferences.Set(key, value)` for a bool: overwrites whatever the key held. */
    method SetBool(key: string, value: bool)
      modifies this
      ensures entries == old(entries)[key := BoolPref(value)]
    {
      entries := entries[key := BoolPref(value)];
    }

    /** `Preferences.Set(key, value)` for a string: overwrites whatever the key held. */
    method SetString(key: string, value: string)
      modifies this
      ensures entries == old(entries)[key := StringPref(value)]
    {
      entries := entries[key := StringPref(value)];
    }

    /** `Preferences.Remove(key)`: a key that is absent is left absent. */
    method Remove(key: string)
      modifies this
      ensures entries == old(entries) - {key}
    {
      entries := entries - {key};
    }
  }
}
