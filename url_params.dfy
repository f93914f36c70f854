/**
 * The URL search parameters the admin listing pages keep their state in.
 * `URLSearchParams` is modelled as a map from name to value: each name holds
 * at most one value, and the order of the entries is not kept.
 */
module UrlParams {
  import opened Wrappers
  import opened Text

  /** `searchParams.get(key) || fallback`: a missing or empty parameter gives the fallback. */
  function GetOr(entries: map<string, string>, key: string, fallback: string): (r: string)
    ensures key in entries && entries[key] != "" ==> r == entries[key]
    ensures key !in entries || entries[key] == "" ==> r == fallback
  {
    if key in entries && entries[key] != "" then entries[key] else fallback
  }

  /**
   * `Number(searchParams.get(key)) || fallback`: a missing parameter is
   * `Number(null)`, which is 0, so it falls back like "", "0" and text that is
   * not a number.
   */
  function NumberParam(entries: map<string, string>, key: string, fallback: int): (r: int)
    ensures key !in entries ==> r == fallback
    ensures key in entries && ParseNumber(entries[key]) in {None, Some(0)} ==> r == fallback
    ensures key in entries && ParseNumber(entries[key]).Some? && ParseNumber(entries[key]).value != 0 ==>
      r == ParseNumber(entries[key]).value
  {
    if key in entries then NumberOr(ParseNumber(entries[key]), fallback) else fallback
  }

  /** A number written with `toString()` reads back as itself, or as the fallback when it is 0. */
  lemma NumberParamOfIntToString(entries: map<string, string>, key: string, v: int, fallback: int)
    requires key in entries && entries[key] == IntToString(v)
    ensures NumberParam(entries, key, fallback) == if v != 0 then v else fallback
  {
    ParseNumberOfIntToString(v);
  }

  /** The `URLSearchParams` object a page updates in place through `set` and `delete`. */
  class SearchParams {
    var entries: map<string, string>

    constructor (entries: map<string, string>)
      ensures this.entries == entries
    {
      this.entries := entries;
    }

    /** `get(key)`: the value, or null. */
    function Get(key: string): (r: Option<string>)
      reads this
      ensures r.Some? <==> key in entries
      ensures r.Some? ==> r.value == entries[key]
    {
      if key in entries then Some(entries[key]) else None
    }

    /** `set(key, value)`. */
    method Set(key: string, value: string)
      modifies this
      ensures entries == old(entries)[key := value]
    {
      entries := entries[key := value];
    }

    /** `delete(key)`. */
    method Delete(key: string)
      modifies this
      ensures entries == old(entries) - {key}
    {
      entries := entries - {key};
    }
  }
}
