/** An insertion-ordered mapping from names to amounts, the shape of a Python
    `dict` whose key order matters: a sequence of (name, amount) pairs. */
module OrderedMap {
  import opened Wrappers
  import opened Seqs

  type Mapping = seq<(string, int)>

  /** `list(m.keys())` */
  function Keys(m: Mapping): seq<string> {
    seq(|m|, i requires 0 <= i < |m| => m[i].0)
  }

  /** `list(m.values())` */
  function Values(m: Mapping): seq<int> {
    seq(|m|, i requires 0 <= i < |m| => m[i].1)
  }

  /** A well-formed mapping names each key once. */
  ghost predicate DistinctKeys(m: Mapping) {
    Distinct(Keys(m))
  }

  /** `m.get(k)`: the amount stored under `k`, or None when `k` is not a key. */
  function Lookup(m: Mapping, k: string): (r: Option<int>)
    ensures r.Some? <==> k in Keys(m)
    ensures r.Some? ==> m[IndexOf(Keys(m), k)].1 == r.value
  {
    if |m| == 0 then None
    else if m[0].0 == k then
      assert Keys(m)[0] == k;
      Some(m[0].1)
    else
      assert Keys(m) == [m[0].0] + Keys(m[1..]);
      Lookup(m[1..], k)
  }

  /** `m[k] = v`: an existing key keeps its position and takes the new amount;
      a new key is appended at the end. */
  function Put(m: Mapping, k: string, v: int): (r: Mapping)
    ensures k in Keys(m) ==> Keys(r) == Keys(m)
    ensures k !in Keys(m) ==> Keys(r) == Keys(m) + [k]
    ensures DistinctKeys(m) ==> DistinctKeys(r)
    ensures forall i :: 0 <= i < |r| ==> r[i] == (k, v) || r[i] in m
  {
    if |m| == 0 then [(k, v)]
    else if m[0].0 == k then
      var r := [(k, v)] + m[1..];
      assert Keys(m)[0] == k;
      assert Keys(r) == Keys(m);
      r
    else
      var tail := Put(m[1..], k, v);
      var r := [m[0]] + tail;
      assert Keys(m) == [m[0].0] + Keys(m[1..]);
      assert Keys(r) == [m[0].0] + Keys(tail);
      DistinctCons(m[0].0, Keys(m[1..]));
      DistinctCons(m[0].0, Keys(tail));
      r
  }

  /** After `m[k] = v`, `k` reads back `v` and every other key reads as before. */
  lemma {:induction false} PutLookup(m: Mapping, k: string, v: int)
    ensures Lookup(Put(m, k, v), k) == Some(v)
    ensures forall k' :: k' != k ==> Lookup(Put(m, k, v), k') == Lookup(m, k')
  {
    if |m| > 0 && m[0].0 != k {
      PutLookup(m[1..], k, v);
    }
  }

  /** `{c: state[c] for c in cats}`: one `Put` per category, in list order. */
  function FromKeys(cats: seq<string>, state: map<string, int>): (r: Mapping)
    requires forall c :: c in cats ==> c in state
    ensures DistinctKeys(r)
    ensures forall c :: c in Keys(r) <==> c in cats
    ensures forall i :: 0 <= i < |r| ==> r[i].0 in state && r[i].1 == state[r[i].0]
  {
    if |cats| == 0 then []
    else
      var last := cats[|cats| - 1];
      var init := cats[..|cats| - 1];
      assert forall c :: c in cats <==> c in init || c == last;
      Put(FromKeys(init, state), last, state[last])
  }

  /** With categories that do not repeat, the built mapping lists exactly the
      categories, in their order, each paired with its entered amount. */
  lemma {:induction false} FromDistinctKeys(cats: seq<string>, state: map<string, int>)
    requires forall c :: c in cats ==> c in state
    requires Distinct(cats)
    ensures Keys(FromKeys(cats, state)) == cats
    ensures |FromKeys(cats, state)| == |cats|
    ensures forall i :: 0 <= i < |cats| ==> FromKeys(cats, state)[i] == (cats[i], state[cats[i]])
  {
    if |cats| > 0 {
      var last := cats[|cats| - 1];
      var init := cats[..|cats| - 1];
      FromDistinctKeys(init, state);
      var m := FromKeys(init, state);
      assert last !in init;
      var r := FromKeys(cats, state);
      assert Keys(r) == init + [last] == cats;
      assert |r| == |cats|;
      forall i | 0 <= i < |cats|
        ensures r[i] == (cats[i], state[cats[i]])
      {
        assert r[i].0 == Keys(r)[i] == cats[i];
      }
    }
  }
}
