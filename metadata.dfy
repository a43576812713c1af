/** Plain JavaScript objects with string keys, as the loggers build them: an
    association list in insertion order. Writing an existing key keeps its position;
    writing a new key appends it (the property order of ECMAScript objects). */
module Metadata {
  import opened Wrappers

  type Entries = seq<(string, string)>

  function Keys(m: Entries): set<string> {
    if |m| == 0 then {} else {m[0].0} + Keys(m[1..])
  }

  lemma KeysCons(x: (string, string), r: Entries)
    ensures Keys([x] + r) == {x.0} + Keys(r)
  {
    assert ([x] + r)[1..] == r;
  }

  predicate UniqueKeys(m: Entries) {
    |m| == 0 || (m[0].0 !in Keys(m[1..]) && UniqueKeys(m[1..]))
  }

  /** `m[k]`, `None` standing for `undefined`. */
  function Lookup(m: Entries, k: string): (r: Option<string>)
    ensures r.Some? <==> k in Keys(m)
  {
    if |m| == 0 then None
    else if m[0].0 == k then Some(m[0].1)
    else Lookup(m[1..], k)
  }

  /** `m[k] = v`. */
  function Put(m: Entries, k: string, v: string): (r: Entries)
    ensures Lookup(r, k) == Some(v)
    ensures forall k' :: k' != k ==> Lookup(r, k') == Lookup(m, k')
    ensures Keys(r) == Keys(m) + {k}
    ensures k in Keys(m) ==> |r| == |m|
    ensures k !in Keys(m) ==> r == m + [(k, v)]
    ensures UniqueKeys(m) ==> UniqueKeys(r)
  {
    if |m| == 0 then [(k, v)]
    else if m[0].0 == k then
      var r := [(k, v)] + m[1..];
      KeysCons((k, v), m[1..]);
      assert r[1..] == m[1..];
      r
    else
      var rest := Put(m[1..], k, v);
      var r := [m[0]] + rest;
      KeysCons(m[0], rest);
      assert r[1..] == rest;
      assert k !in Keys(m) ==> r == m + [(k, v)] by {
        if k !in Keys(m) { assert m == [m[0]] + m[1..]; }
      }
      r
  }

  /** `Object.assign(target, source)`: every own property of `source`, in order,
      is written into `target`. */
  function Assign(target: Entries, source: Entries): (r: Entries)
    ensures Keys(r) == Keys(target) + Keys(source)
    ensures UniqueKeys(target) ==> UniqueKeys(r)
    decreases |source|
  {
    if |source| == 0 then target
    else Assign(Put(target, source[0].0, source[0].1), source[1..])
  }

  /** After `Object.assign`, a key holds the source's value when the source has it,
      and keeps the target's value otherwise. */
  lemma {:induction false} AssignLookup(target: Entries, source: Entries, k: string)
    requires UniqueKeys(source)
    ensures Lookup(Assign(target, source), k)
            == if k in Keys(source) then Lookup(source, k) else Lookup(target, k)
    decreases |source|
  {
    if |source| > 0 {
      var t' := Put(target, source[0].0, source[0].1);
      AssignLookup(t', source[1..], k);
    }
  }
}
