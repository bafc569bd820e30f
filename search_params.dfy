/**
 * The query part of the address bar as the WHATWG URL standard's
 * `URLSearchParams` object holds it: an ordered list of name-value pairs in
 * which a name may occur several times.
 */
module SearchParams {
  import opened Wrappers

  type Query = seq<(string, string)>

  /** `getAll(k)`: every value stored under `k`, in list order. */
  function GetAll(q: Query, k: string): (vs: seq<string>)
    ensures |vs| <= |q|
  {
    if q == [] then []
    else (if q[0].0 == k then [q[0].1] else []) + GetAll(q[1..], k)
  }

  /** `get(k)`: the value of the first pair named `k`, or null. */
  function Get(q: Query, k: string): (v: Option<string>)
    ensures v.Some? ==> exists i :: 0 <= i < |q| && q[i] == (k, v.value)
  {
    if q == [] then None
    else if q[0].0 == k then Some(q[0].1)
    else Get(q[1..], k)
  }

  /** `get` answers with the first of the values `getAll` lists. */
  lemma {:induction false} GetIsFirstOfGetAll(q: Query, k: string)
    ensures Get(q, k) == if GetAll(q, k) == [] then None else Some(GetAll(q, k)[0])
  {
    if q != [] && q[0].0 != k {
      GetIsFirstOfGetAll(q[1..], k);
    }
  }

  /** `getAll(k)` lists a value exactly when the query holds a pair of `k` with that value. */
  lemma {:induction false} GetAllValues(q: Query, k: string, v: string)
    ensures v in GetAll(q, k) <==> (k, v) in q
  {
    if q != [] {
      GetAllValues(q[1..], k, v);
      assert q == [q[0]] + q[1..];
    }
  }

  /** `append(k, v)`: add a pair at the end. */
  function Append(q: Query, k: string, v: string): (r: Query)
    ensures GetAll(r, k) == GetAll(q, k) + [v]
    ensures forall k' :: k' != k ==> GetAll(r, k') == GetAll(q, k')
  {
    GetAllConcatAll(q, [(k, v)]);
    q + [(k, v)]
  }

  /** Drops every pair named `k`. */
  function RemoveKey(q: Query, k: string): (r: Query)
    ensures GetAll(r, k) == []
    ensures forall k' :: k' != k ==> GetAll(r, k') == GetAll(q, k')
  {
    if q == [] then []
    else if q[0].0 == k then RemoveKey(q[1..], k)
    else [q[0]] + RemoveKey(q[1..], k)
  }

  /** The first pair named `k` gets the value `v`; later pairs named `k` go. */
  function ReplaceFirst(q: Query, k: string, v: string): (r: Query)
    requires GetAll(q, k) != []
    ensures GetAll(r, k) == [v]
    ensures forall k' :: k' != k ==> GetAll(r, k') == GetAll(q, k')
  {
    if q[0].0 == k then [(k, v)] + RemoveKey(q[1..], k)
    else [q[0]] + ReplaceFirst(q[1..], k, v)
  }

  /**
   * `set(k, v)`: when a pair named `k` exists, the first one takes the value
   * `v` and the others are removed; otherwise the pair is appended.
   */
  function Set(q: Query, k: string, v: string): (r: Query)
    ensures GetAll(r, k) == [v]
    ensures forall k' :: k' != k ==> GetAll(r, k') == GetAll(q, k')
    ensures GetAll(q, k) == [] ==> r == q + [(k, v)]
  {
    if GetAll(q, k) != [] then ReplaceFirst(q, k, v) else Append(q, k, v)
  }

  lemma {:induction false} GetAllConcat(a: Query, b: Query, k: string)
    ensures GetAll(a + b, k) == GetAll(a, k) + GetAll(b, k)
  {
    if a == [] {
      assert a + b == b;
    } else {
      assert (a + b)[0] == a[0] && (a + b)[1..] == a[1..] + b;
      GetAllConcat(a[1..], b, k);
    }
  }

  lemma GetAllConcatAll(a: Query, b: Query)
    ensures forall k :: GetAll(a + b, k) == GetAll(a, k) + GetAll(b, k)
  {
    forall k ensures GetAll(a + b, k) == GetAll(a, k) + GetAll(b, k) {
      GetAllConcat(a, b, k);
    }
  }
}
