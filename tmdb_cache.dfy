/**
 * `TMDBHelper` (netflix2trakt.py:33-109): an in-memory cache of TMDB search results
 * keyed by lower-cased title, with hit and miss counters, and the reduction of a TMDB
 * result to a small JSON-safe dictionary before it is cached. Writing the cache file is
 * an oracle: the caller says whether persisting succeeded.
 */
module TmdbCache {
  import opened Wrappers
  import opened Text

  /** A Python value as far as `_serialize_result` distinguishes them. */
  datatype Value =
    | VStr(s: string)
    | VInt(i: int)
    | VFloat(f: real)
    | VBool(b: bool)
    | VNone
    | VList
    | VDict
    | VObject

  /** `isinstance(v, (str, int, float, type(None)))`; a bool is an int in Python, so it passes. */
  predicate IsPrimitive(v: Value) {
    v.VStr? || v.VInt? || v.VFloat? || v.VBool? || v.VNone?
  }

  /**
   * A search result: a dict, or an object with its `__dict__` and, when it has one, the
   * value of its `id` attribute (which need not live in `__dict__`).
   */
  datatype TmdbResult =
    | DictResult(fields: map<string, Value>)
    | ObjectResult(attributes: map<string, Value>, idAttribute: Option<Value>)

  type Serialized = map<string, Value>

  /** The keys `_serialize_result` keeps, in its order (netflix2trakt.py:86-89). */
  const AllowedKeys: seq<string> :=
    ["id", "name", "title", "original_name", "original_title", "first_air_date", "release_date", "media_type"]

  /** `int(v)`: ints, bools and floats (toward zero) convert, strings as `IntOf` reads them; the rest raise. */
  function CoerceInt(v: Value): Option<int> {
    match v
    case VInt(i) => Some(i)
    case VBool(b) => Some(if b then 1 else 0)
    case VFloat(f) => Some(if f >= 0.0 then f.Floor else -((-f).Floor))
    case VStr(s) => IntOf(s)
    case _ => None
  }

  /** `base`: the dict itself, or the object's `__dict__`. */
  function BaseOf(result: TmdbResult): map<string, Value> {
    match result
    case DictResult(fields) => fields
    case ObjectResult(attributes, _) => attributes
  }

  /** The loop over `keys`: copy each present key whose value is primitive. */
  function Whitelisted(base: map<string, Value>, keys: seq<string>): (out: Serialized)
    ensures forall k :: k in out <==> k in keys && k in base && IsPrimitive(base[k])
    ensures forall k :: k in out ==> out[k] == base[k]
  {
    if keys == [] then map[]
    else
      var out := Whitelisted(base, keys[..|keys| - 1]);
      var k := keys[|keys| - 1];
      assert keys == keys[..|keys| - 1] + [k];
      if k in base && IsPrimitive(base[k]) then out[k := base[k]] else out
  }

  /** `_serialize_result` (netflix2trakt.py:75-102). */
  function SerializeResult(result: TmdbResult): (out: Serialized)
    ensures forall k :: k in out ==> k in AllowedKeys && IsPrimitive(out[k])
    ensures forall k :: k in AllowedKeys && k in BaseOf(result) && IsPrimitive(BaseOf(result)[k]) ==>
              k in out && out[k] == BaseOf(result)[k]
    ensures forall k :: k in out && k != "id" ==> k in BaseOf(result) && out[k] == BaseOf(result)[k]
    ensures "id" in out && !("id" in BaseOf(result) && IsPrimitive(BaseOf(result)["id"])) ==>
              && result.ObjectResult? && result.idAttribute.Some?
              && CoerceInt(result.idAttribute.value).Some?
              && out["id"] == VInt(CoerceInt(result.idAttribute.value).value)
    ensures && result.ObjectResult? && result.idAttribute.Some?
            && !("id" in BaseOf(result) && IsPrimitive(BaseOf(result)["id"]))
            && CoerceInt(result.idAttribute.value).Some? ==>
              "id" in out && out["id"] == VInt(CoerceInt(result.idAttribute.value).value)
  {
    var out := Whitelisted(BaseOf(result), AllowedKeys);
    if "id" !in out && result.ObjectResult? && result.idAttribute.Some? then
      match CoerceInt(result.idAttribute.value)
      case Some(n) => out["id" := VInt(n)]
      case None => out
    else out
  }

  /** A dict result gains no "id": a dict has no `id` attribute, so only a primitive `"id"` entry survives. */
  lemma DictResultKeepsOwnId(fields: map<string, Value>)
    ensures "id" in SerializeResult(DictResult(fields)) <==> "id" in fields && IsPrimitive(fields["id"])
  {
  }

  /** Serializing an already serialized dict changes nothing, so re-caching a cached result is harmless. */
  lemma SerializeIdempotent(result: TmdbResult)
    ensures SerializeResult(DictResult(SerializeResult(result))) == SerializeResult(result)
  {
    var out := SerializeResult(result);
    var again := SerializeResult(DictResult(out));
    assert again.Keys == out.Keys;
  }

  class TmdbHelper {
    var cache: map<string, Serialized>
    var hits: nat
    var misses: nat

    /** `__init__` with the cache file's contents already read (an unreadable file gives the empty cache). */
    constructor (loaded: map<string, Serialized>)
      ensures cache == loaded && hits == 0 && misses == 0
    {
      cache := loaded;
      hits := 0;
      misses := 0;
    }

    /** `get_cached_result` (netflix2trakt.py:47-54): exactly one of the two counters grows. */
    method GetCachedResult(title: string) returns (r: Option<Serialized>)
      modifies this`hits, this`misses
      ensures Lower(title) in cache ==> r == Some(cache[Lower(title)]) && hits == old(hits) + 1 && misses == old(misses)
      ensures Lower(title) !in cache ==> r == None && hits == old(hits) && misses == old(misses) + 1
    {
      var key := Lower(title);
      if key in cache {
        hits := hits + 1;
        r := Some(cache[key]);
      } else {
        misses := misses + 1;
        r := None;
      }
    }

    /**
     * `set_cached_result` (netflix2trakt.py:56-73): store the serialized result under the
     * lower-cased title; when writing the file fails the key is dropped again, which also
     * loses any entry it had before.
     */
    method SetCachedResult(title: string, result: TmdbResult, persisted: bool)
      modifies this`cache
      ensures persisted ==> cache == old(cache)[Lower(title) := SerializeResult(result)]
      ensures !persisted ==> cache == old(cache) - {Lower(title)}
    {
      var key := Lower(title);
      cache := cache[key := SerializeResult(result)];
      if !persisted {
        cache := cache - {key};
      }
    }
  }
}
