/** The get-or-create step shared by all registries in the snippets: `dict.setdefault`
    in the flyweights, and `if key not in d: d[key] = value` followed by `return d[key]`
    in the singletons. The two differ only in WHEN the value is built (see the callers);
    their effect on the dictionary and the value they return are the same. */
module Cache {
  import opened Python

  /** The dictionary after the step and the value returned. */
  function SetDefault<K, V>(d: map<K, V>, k: K, v: V): (r: (map<K, V>, V))
    ensures k in r.0 && r.0[k] == r.1
    ensures r.0.Keys == d.Keys + {k}
    ensures forall j :: j in d ==> r.0[j] == d[j]
    ensures k in d ==> r.1 == d[k]
    ensures k !in d ==> r.1 == v
  {
    if k in d then (d, d[k]) else (d[k := v], v)
  }

  /** The dictionary after a sequence of get-or-create requests, in order. */
  function Replay<K, V>(d: map<K, V>, requests: seq<(K, V)>): map<K, V>
    decreases |requests|
  {
    if requests == [] then d
    else Replay(SetDefault(d, requests[0].0, requests[0].1).0, requests[1..])
  }

  /** The value offered by the first request for `k`, if any. */
  function FirstOffered<K(==), V>(requests: seq<(K, V)>, k: K): Option<V>
    decreases |requests|
  {
    if requests == [] then None
    else if requests[0].0 == k then Some(requests[0].1)
    else FirstOffered(requests[1..], k)
  }

  /** A repeated request changes nothing and returns what the first one returned,
      whatever value it offers. */
  lemma SetDefaultIdempotent<K, V>(d: map<K, V>, k: K, v: V, w: V)
    ensures SetDefault(SetDefault(d, k, v).0, k, w) == (SetDefault(d, k, v).0, SetDefault(d, k, v).1)
  {
  }

  /** First writer wins over a whole history: an entry already present is never
      replaced; a missing key ends up bound to the value of the FIRST request for it,
      and is present exactly when some request asked for it; nothing is removed. */
  lemma {:induction false} ReplayFirstWins<K, V>(d: map<K, V>, requests: seq<(K, V)>, k: K)
    ensures d.Keys <= Replay(d, requests).Keys
    ensures k in d ==> Replay(d, requests)[k] == d[k]
    ensures k !in d ==> (k in Replay(d, requests) <==> FirstOffered(requests, k).Some?)
    ensures k !in d && FirstOffered(requests, k).Some? ==>
              Replay(d, requests)[k] == FirstOffered(requests, k).value
    decreases |requests|
  {
    if requests != [] {
      var d' := SetDefault(d, requests[0].0, requests[0].1).0;
      ReplayFirstWins(d', requests[1..], k);
      forall j | j in d ensures j in Replay(d, requests) {
        ReplayFirstWins(d', requests[1..], j);
      }
    }
  }
}
