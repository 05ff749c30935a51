/** The specification every cache in the system is measured against: one map from keys to
    entries in which a Put replaces an entry atomically and any entry may be lost at any time,
    but which never invents, mixes or resurrects an entry. */
module LossyMap {
  import opened CacheTypes

  type Contents = map<Key, Entry>

  datatype Event =
    | Put(key: Key, entry: Entry, lost: set<Key>)
    | Lose(lost: set<Key>)
    | Delete(key: Key)
    | Get(key: Key, found: Option<Entry>)

  function Lookup(m: Contents, key: Key): Option<Entry> {
    if key in m then Some(m[key]) else None
  }

  function Apply(m: Contents, ev: Event): Contents {
    match ev
    case Put(key, entry, lost) => (m - lost)[key := entry]
    case Lose(lost) => m - lost
    case Delete(key) => m - {key}
    case Get(_, _) => m
  }

  predicate Enabled(m: Contents, ev: Event) {
    ev.Get? ==> ev.found == Lookup(m, ev.key)
  }

  function Run(m: Contents, evs: seq<Event>): Contents {
    if evs == [] then m else Apply(Run(m, evs[..|evs| - 1]), evs[|evs| - 1])
  }

  predicate Valid(m: Contents, evs: seq<Event>) {
    evs == [] ||
    (Valid(m, evs[..|evs| - 1]) && Enabled(Run(m, evs[..|evs| - 1]), evs[|evs| - 1]))
  }

  /** The entry bound by the last Put of `key`, unless the key was deleted after it. */
  function LastPut(evs: seq<Event>, key: Key): Option<Entry> {
    if evs == [] then None
    else
      var ev := evs[|evs| - 1];
      if ev.Put? && ev.key == key then Some(ev.entry)
      else if ev.Delete? && ev.key == key then None
      else LastPut(evs[..|evs| - 1], key)
  }

  /** Nothing older than the last Put is ever visible. */
  lemma {:induction false} OnlyTheLastPutIsVisible(evs: seq<Event>, key: Key)
    requires key in Run(map[], evs)
    ensures LastPut(evs, key) == Some(Run(map[], evs)[key])
  {
    var ev := evs[|evs| - 1];
    if !(ev.Put? && ev.key == key) {
      OnlyTheLastPutIsVisible(evs[..|evs| - 1], key);
    }
  }

  /** Every Get of a run from the empty map answers "not found" or the last Put of that key. */
  lemma {:induction false} GetsReturnTheLastPut(evs: seq<Event>, i: nat)
    requires Valid(map[], evs)
    requires i < |evs| && evs[i].Get? && evs[i].found.Some?
    ensures LastPut(evs[..i], evs[i].key) == evs[i].found
    decreases |evs|
  {
    var init := evs[..|evs| - 1];
    if i == |evs| - 1 {
      OnlyTheLastPutIsVisible(init, evs[i].key);
    } else {
      GetsReturnTheLastPut(init, i);
      assert init[..i] == evs[..i];
    }
  }
}
