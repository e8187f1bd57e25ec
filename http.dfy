/**
 * The parts of an HTTP exchange the services build or inspect: query
 * parameters set one key at a time (`HttpParams.set`), the request sent, the
 * answer (a body or an error status), and the classes of error status the
 * services tell apart.
 */
module Http {
  import opened Wrappers

  /** Query parameters or headers, in the order they were first set. */
  type Params = seq<(string, string)>

  function Keys(ps: Params): (ks: seq<string>)
    ensures |ks| == |ps|
  {
    if ps == [] then [] else [ps[0].0] + Keys(ps[1..])
  }

  /** The value of the first entry with key `k`. */
  function Lookup(ps: Params, k: string): (r: Option<string>)
    ensures r.None? <==> k !in Keys(ps)
  {
    if ps == [] then None
    else if ps[0].0 == k then Some(ps[0].1)
    else Lookup(ps[1..], k)
  }

  /** `params.set(k, v)`: a new key goes to the end, an existing one keeps its place. */
  function SetParam(ps: Params, k: string, v: string): (r: Params)
    ensures |r| == if k in Keys(ps) then |ps| else |ps| + 1
  {
    if ps == [] then [(k, v)]
    else if ps[0].0 == k then [(k, v)] + ps[1..]
    else [ps[0]] + SetParam(ps[1..], k, v)
  }

  /** After `set(k, v)`, `k` has the value `v` and every other key keeps its value. */
  lemma {:induction false} SetParamLookup(ps: Params, k: string, v: string, k': string)
    ensures Lookup(SetParam(ps, k, v), k) == Some(v)
    ensures k' != k ==> Lookup(SetParam(ps, k, v), k') == Lookup(ps, k')
  {
    if ps != [] && ps[0].0 != k {
      SetParamLookup(ps[1..], k, v, k');
    }
  }

  /** Setting adds the key at the end exactly when it was not there, and moves no key. */
  lemma {:induction false} SetParamKeys(ps: Params, k: string, v: string)
    ensures k in Keys(ps) ==> Keys(SetParam(ps, k, v)) == Keys(ps)
    ensures k !in Keys(ps) ==> Keys(SetParam(ps, k, v)) == Keys(ps) + [k]
  {
    if ps != [] && ps[0].0 != k {
      SetParamKeys(ps[1..], k, v);
      var rest := SetParam(ps[1..], k, v);
      assert ([ps[0]] + rest)[1..] == rest;
    }
  }

  /** A request: the URL, the headers and the query parameters. */
  datatype Request = Request(url: string, headers: Params, params: Params)

  /** What came back: the decoded body, or an error with its HTTP status (0 when no response arrived). */
  datatype HttpAnswer<+T> = Body(value: T) | Failure(status: int)

  /** The error statuses the MusicBrainz services tell apart. */
  datatype ErrorClass = Unavailable | RateLimited | Unreachable | OtherStatus

  function Classify(status: int): (c: ErrorClass)
    ensures c == Unavailable <==> status == 503
    ensures c == RateLimited <==> status == 429
    ensures c == Unreachable <==> status == 0
  {
    if status == 503 then Unavailable
    else if status == 429 then RateLimited
    else if status == 0 then Unreachable
    else OtherStatus
  }

  /** Setting a key that is not there yet appends it with its value. */
  lemma {:induction false} SetParamNew(ps: Params, k: string, v: string)
    requires k !in Keys(ps)
    ensures SetParam(ps, k, v) == ps + [(k, v)]
  {
    if ps != [] {
      SetParamNew(ps[1..], k, v);
    }
  }

  /** Parameters set from nothing, one distinct key after the other, come out in that order. */
  lemma SetThree(k1: string, v1: string, k2: string, v2: string, k3: string, v3: string)
    requires k1 != k2 && k1 != k3 && k2 != k3
    ensures SetParam(SetParam(SetParam([], k1, v1), k2, v2), k3, v3) == [(k1, v1), (k2, v2), (k3, v3)]
  {
    SetParamNew([(k1, v1)], k2, v2);
    assert Keys([(k1, v1), (k2, v2)]) == [k1, k2];
    SetParamNew([(k1, v1), (k2, v2)], k3, v3);
  }

  lemma KeysOfThree(k1: string, v1: string, k2: string, v2: string, k3: string, v3: string)
    ensures Keys([(k1, v1), (k2, v2), (k3, v3)]) == [k1, k2, k3]
  {
    var ps := [(k1, v1), (k2, v2), (k3, v3)];
    assert ps[1..] == [(k2, v2), (k3, v3)] && ps[1..][1..] == [(k3, v3)];
    assert Keys(ps[1..][1..]) == [k3] + Keys([]);
    assert Keys(ps[1..]) == [k2] + Keys(ps[1..][1..]);
  }
}
