/**
 * Named entries in insertion order, as a Python dict iterates its items:
 * the registry of model families and the score report are both of this shape.
 */
module Entries {

  /** `list(d.keys())`. */
  function Keys<T>(entries: seq<(string, T)>): (keys: seq<string>)
    ensures |keys| == |entries|
    ensures forall i :: 0 <= i < |entries| ==> keys[i] == entries[i].0
  {
    if entries == [] then [] else [entries[0].0] + Keys(entries[1..])
  }

  /** `list(d.values())`. */
  function Values<T>(entries: seq<(string, T)>): (values: seq<T>)
    ensures |values| == |entries|
    ensures forall i :: 0 <= i < |entries| ==> values[i] == entries[i].1
  {
    if entries == [] then [] else [entries[0].1] + Values(entries[1..])
  }

  /** No key occurs twice, as for the keys of a dict. */
  predicate UniqueKeys<T>(entries: seq<(string, T)>)
  {
    forall i, j :: 0 <= i < j < |entries| ==> entries[i].0 != entries[j].0
  }
}
