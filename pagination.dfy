/**
 * The `query_transform` template tag: copy the request's query parameters,
 * overwrite the given keys, and encode the copy. A query dictionary maps
 * each key to its list of values; assigning a key replaces the whole list
 * with the one value.
 */
module Pagination {

  class QueryDict {
    var entries: map<string, seq<string>>

    constructor (entries: map<string, seq<string>>)
      ensures this.entries == entries
    {
      this.entries := entries;
    }

    /** `copy()`: a new dictionary with the same entries. */
    method Copy() returns (c: QueryDict)
      ensures fresh(c) && c.entries == entries
    {
      c := new QueryDict(entries);
    }

    /** `query[key] = value`. */
    method Set(key: string, value: string)
      modifies this
      ensures entries == old(entries)[key := [value]]
    {
      entries := entries[key := [value]];
    }
  }

  /** The keyword arguments of the tag, in order. */
  datatype Override = Override(key: string, value: string)

  /** The arguments' keys; keyword arguments never repeat a name. */
  function OverrideKeys(overrides: seq<Override>): (keys: set<string>)
    ensures forall i :: 0 <= i < |overrides| ==> overrides[i].key in keys
    ensures forall k :: k in keys ==> exists i :: 0 <= i < |overrides| && overrides[i].key == k
  {
    if |overrides| == 0 then {}
    else OverrideKeys(overrides[..|overrides| - 1]) + {overrides[|overrides| - 1].key}
  }

  predicate DistinctKeys(overrides: seq<Override>)
  {
    forall i, j :: 0 <= i < j < |overrides| ==> overrides[i].key != overrides[j].key
  }

  /** The entries after assigning the overrides in order. */
  function Overlay(query: map<string, seq<string>>, overrides: seq<Override>): map<string, seq<string>>
  {
    if |overrides| == 0 then query
    else
      var last := overrides[|overrides| - 1];
      Overlay(query, overrides[..|overrides| - 1])[last.key := [last.value]]
  }

  /** Nothing is removed: the keys are the original ones and the overridden ones. */
  lemma {:induction false} OverlayKeys(query: map<string, seq<string>>, overrides: seq<Override>)
    ensures Overlay(query, overrides).Keys == query.Keys + OverrideKeys(overrides)
  {
    if |overrides| > 0 {
      OverlayKeys(query, overrides[..|overrides| - 1]);
    }
  }

  /** A key no argument names keeps its original values. */
  lemma {:induction false} OverlayKeepsOthers(query: map<string, seq<string>>, overrides: seq<Override>, k: string)
    requires k in query && k !in OverrideKeys(overrides)
    ensures k in Overlay(query, overrides) && Overlay(query, overrides)[k] == query[k]
  {
    if |overrides| > 0 {
      OverlayKeepsOthers(query, overrides[..|overrides| - 1], k);
    }
  }

  /** Every overridden key ends up with exactly its supplied value. */
  lemma {:induction false} OverlaySetsOverrides(query: map<string, seq<string>>, overrides: seq<Override>, j: int)
    requires DistinctKeys(overrides) && 0 <= j < |overrides|
    ensures overrides[j].key in Overlay(query, overrides)
    ensures Overlay(query, overrides)[overrides[j].key] == [overrides[j].value]
  {
    if j < |overrides| - 1 {
      OverlaySetsOverrides(query, overrides[..|overrides| - 1], j);
    }
  }

  /** Assigning the same arguments again changes nothing. */
  lemma OverlayIdempotent(query: map<string, seq<string>>, overrides: seq<Override>)
    requires DistinctKeys(overrides)
    ensures Overlay(Overlay(query, overrides), overrides) == Overlay(query, overrides)
  {
    var once := Overlay(query, overrides);
    var twice := Overlay(once, overrides);
    OverlayKeys(query, overrides);
    OverlayKeys(once, overrides);
    forall k | k in twice
      ensures k in once && twice[k] == once[k]
    {
      if k in OverrideKeys(overrides) {
        var j :| 0 <= j < |overrides| && overrides[j].key == k;
        OverlaySetsOverrides(query, overrides, j);
        OverlaySetsOverrides(once, overrides, j);
      } else {
        OverlayKeepsOthers(once, overrides, k);
      }
    }
  }

  /**
   * `query_transform` up to the encoding: the copy's entries after the
   * assignments. The request's own dictionary is left as it was.
   */
  method QueryTransform(get: QueryDict, overrides: seq<Override>) returns (r: map<string, seq<string>>)
    ensures r == Overlay(get.entries, overrides)
  {
    var query := get.Copy();
    var i := 0;
    while i < |overrides|
      invariant 0 <= i <= |overrides|
      invariant query.entries == Overlay(get.entries, overrides[..i])
    {
      assert overrides[..i + 1][..i] == overrides[..i];
      query.Set(overrides[i].key, overrides[i].value);
      i := i + 1;
    }
    assert overrides[..i] == overrides;
    r := query.entries;
  }
}
