/** A `java.util.prefs.Preferences` node, reduced to its key/value entries. */
module Preferences {
  import opened JavaInt

  /** `Preferences.get(key, default)`. */
  function Lookup(entries: map<string, string>, key: string, default: string): (r: string)
    ensures key in entries ==> r == entries[key]
    ensures key !in entries ==> r == default
  {
    if key in entries then entries[key] else default
  }

  /**
   * Reading after writing: `get` on the key just `put` gives the written value whatever the
   * default, and `get` on any other key sees what it saw before the write.
   */
  lemma LookupAfterPut(entries: map<string, string>, key: string, value: string, other: string, default: string)
    ensures Lookup(entries[key := value], key, default) == value
    ensures other != key ==> Lookup(entries[key := value], other, default) == Lookup(entries, other, default)
  {
  }

  class PreferencesNode {
    var entries: map<string, string>

    constructor (entries: map<string, string>)
      ensures this.entries == entries
    {
      this.entries := entries;
    }

    method Put(key: string, value: string)
      modifies this
      ensures entries == old(entries)[key := value]
    {
      entries := entries[key := value];
    }

    /** `putInt` stores the decimal text of the value. */
    method PutInt(key: string, value: Int32)
      modifies this
      ensures entries == old(entries)[key := IntToString(value)]
    {
      entries := entries[key := IntToString(value)];
    }
  }
}
