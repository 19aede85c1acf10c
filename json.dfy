/**
  JSON values as the Python side holds them after decoding (or before encoding):
  None, bool, int, float, str, list and dict. A dict keeps its keys in insertion
  order, as Python's does, so it is a sequence of (key, value) pairs; every dict the
  model builds has distinct keys (DistinctKeys), and inbound objects are taken to
  have them too. Lookups find the first pair with a key; on a dict with distinct
  keys that is the only pair, so it is also the one json.loads would keep.
*/
module Json {
  import opened Wrappers

  datatype Json =
    | JNull                               // None (JSON null, or a key that was absent)
    | JBool(b: bool)
    | JInt(i: int)                        // Python int: unbounded
    | JFloat(shown: string)               // a float, kept opaque as the text str() gives it
    | JStr(s: string)
    | JArr(items: seq<Json>)              // list
    | JObj(fields: Object)                // dict

  type Object = seq<(string, Json)>

  predicate HasKey(fields: Object, key: string) {
    exists i :: 0 <= i < |fields| && fields[i].0 == key
  }

  /** `key in d` and `d[key]` on a dict: the value of the first pair with that key. */
  function Lookup(fields: Object, key: string): (r: Option<Json>)
    ensures r.Some? <==> HasKey(fields, key)
  {
    if |fields| == 0 then None
    else if fields[0].0 == key then Some(fields[0].1)
    else
      var r := Lookup(fields[1..], key);
      assert forall i :: 0 < i < |fields| ==> fields[i] == fields[1..][i - 1];
      r
  }

  /** The value a dict holds for a key is the one of its first pair with that key. */
  lemma {:induction false} LookupAt(fields: Object, k: int, key: string)
    requires 0 <= k < |fields| && fields[k].0 == key
    requires forall j :: 0 <= j < k ==> fields[j].0 != key
    ensures Lookup(fields, key) == Some(fields[k].1)
    decreases k
  {
    if k > 0 {
      assert fields[0].0 != key;
      LookupAt(fields[1..], k - 1, key);
    }
  }

  /** No key occurs twice. */
  predicate DistinctKeys(fields: Object) {
    forall i, j :: 0 <= i < j < |fields| ==> fields[i].0 != fields[j].0
  }

  /** With distinct keys, every pair is the one a lookup of its key finds. */
  lemma LookupDistinct(fields: Object, k: int)
    requires DistinctKeys(fields) && 0 <= k < |fields|
    ensures Lookup(fields, fields[k].0) == Some(fields[k].1)
  {
    LookupAt(fields, k, fields[k].0);
  }

  /** The keys of a dict, in order. */
  function Keys(fields: Object): (ks: seq<string>)
    ensures |ks| == |fields|
    ensures forall i :: 0 <= i < |fields| ==> ks[i] == fields[i].0
  {
    seq(|fields|, i requires 0 <= i < |fields| => fields[i].0)
  }
}
