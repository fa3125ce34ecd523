/** The list operations behind every entity repository: the filter that `removeIf` applies for
    delete-by-ID and the first-match search that `find` performs. An entity list `s` is paired
    with `keys`, the ID of each entity at the same index. */
module Store {

  /** The entities whose ID differs from `id`, in their original order. */
  function Survivors<T>(s: seq<T>, keys: seq<string>, id: string): (r: seq<T>)
    requires |s| == |keys|
    ensures |r| == |s| - Count(keys, id)
  {
    if s == [] then []
    else
      var n := |s| - 1;
      Survivors(s[..n], keys[..n], id) + (if keys[n] == id then [] else [s[n]])
  }

  /** The number of entities whose ID is `id`. */
  function Count(keys: seq<string>, id: string): (n: nat)
    ensures n <= |keys|
  {
    if keys == [] then 0
    else Count(keys[..|keys| - 1], id) + (if keys[|keys| - 1] == id then 1 else 0)
  }

  /** The index of the first entity whose ID is `id`, or `|keys|` when there is none. */
  function FirstIndex(keys: seq<string>, id: string): (k: nat)
    ensures k <= |keys|
    ensures k < |keys| ==> keys[k] == id
    ensures forall j :: 0 <= j < k ==> keys[j] != id
  {
    if keys == [] then 0
    else if keys[0] == id then 0
    else 1 + FirstIndex(keys[1..], id)
  }

  /** There is something to remove exactly when some ID matches; otherwise the list is unchanged. */
  lemma {:induction false} CountPositive(keys: seq<string>, id: string)
    ensures Count(keys, id) > 0 <==> id in keys
  {
    if keys != [] {
      var n := |keys| - 1;
      CountPositive(keys[..n], id);
      assert keys == keys[..n] + [keys[n]];
    }
  }

  /** With no matching ID, delete keeps the list as it is. */
  lemma {:induction false} SurvivorsNoMatch<T>(s: seq<T>, keys: seq<string>, id: string)
    requires |s| == |keys| && id !in keys
    ensures Survivors(s, keys, id) == s
  {
    if s != [] {
      var n := |s| - 1;
      var p, q := s[..n], keys[..n];
      assert id !in q by {
        assert forall x :: x in q ==> x in keys;
      }
      SurvivorsNoMatch(p, q, id);
      assert Survivors(s, keys, id) == p + [s[n]];
      assert p + [s[n]] == s;
    }
  }

  /** Deleting reports a removal exactly when the list shrinks, which is exactly when some ID matches. */
  lemma Removed<T>(s: seq<T>, keys: seq<string>, id: string)
    requires |s| == |keys|
    ensures |Survivors(s, keys, id)| < |s| <==> id in keys
    ensures id !in keys ==> Survivors(s, keys, id) == s
  {
    CountPositive(keys, id);
    if id !in keys {
      SurvivorsNoMatch(s, keys, id);
    }
  }

  /** Each survivor is an entity of the original list whose ID does not match. */
  lemma {:induction false} SurvivorOrigin<T>(s: seq<T>, keys: seq<string>, id: string)
    requires |s| == |keys|
    ensures forall x :: x in Survivors(s, keys, id) ==> exists j :: 0 <= j < |s| && s[j] == x && keys[j] != id
  {
    if s != [] {
      var n := |s| - 1;
      SurvivorOrigin(s[..n], keys[..n], id);
      forall x | x in Survivors(s, keys, id)
        ensures exists j :: 0 <= j < |s| && s[j] == x && keys[j] != id
      {
        if x in Survivors(s[..n], keys[..n], id) {
          var j :| 0 <= j < n && s[..n][j] == x && keys[..n][j] != id;
          assert s[j] == x && keys[j] != id;
        } else {
          assert s[n] == x && keys[n] != id;
        }
      }
    }
  }

  /** Every entity whose ID does not match survives. */
  lemma {:induction false} SurvivorComplete<T>(s: seq<T>, keys: seq<string>, id: string)
    requires |s| == |keys|
    ensures forall j :: 0 <= j < |s| && keys[j] != id ==> s[j] in Survivors(s, keys, id)
  {
    if s != [] {
      var n := |s| - 1;
      SurvivorComplete(s[..n], keys[..n], id);
      forall j | 0 <= j < |s| && keys[j] != id
        ensures s[j] in Survivors(s, keys, id)
      {
        if j < n {
          assert s[..n][j] == s[j] && keys[..n][j] == keys[j];
        }
      }
    }
  }

  /** Filtering a list with one more element at the end filters that element on its own. */
  lemma SurvivorsSnoc<T>(s: seq<T>, keys: seq<string>, x: T, key: string, id: string)
    requires |s| == |keys|
    ensures Survivors(s + [x], keys + [key], id) == Survivors(s, keys, id) + (if key == id then [] else [x])
  {
    assert (s + [x])[..|s|] == s;
    assert (keys + [key])[..|keys|] == keys;
  }

  /** Delete keeps relative order: filtering a concatenation filters each part in place. */
  lemma {:induction false} SurvivorsAppend<T>(s1: seq<T>, k1: seq<string>, s2: seq<T>, k2: seq<string>, id: string)
    requires |s1| == |k1| && |s2| == |k2|
    ensures Survivors(s1 + s2, k1 + k2, id) == Survivors(s1, k1, id) + Survivors(s2, k2, id)
    decreases |s2|
  {
    if s2 == [] {
      assert s1 + s2 == s1 && k1 + k2 == k1;
    } else {
      var n := |s2| - 1;
      var p, q := s2[..n], k2[..n];
      assert s2 == p + [s2[n]] && k2 == q + [k2[n]];
      assert s1 + s2 == (s1 + p) + [s2[n]] && k1 + k2 == (k1 + q) + [k2[n]];
      SurvivorsSnoc(s1 + p, k1 + q, s2[n], k2[n], id);
      SurvivorsSnoc(p, q, s2[n], k2[n], id);
      SurvivorsAppend(s1, k1, p, q, id);
    }
  }

  /** Deleting twice is deleting once: after a delete, no ID matches, so a second one removes nothing. */
  lemma SurvivorsIdempotent<T>(s: seq<T>, keys: seq<string>, id: string)
    requires |s| == |keys|
    ensures id !in Survivors(keys, keys, id)
    ensures Survivors(Survivors(s, keys, id), Survivors(keys, keys, id), id) == Survivors(s, keys, id)
  {
    SurvivorOrigin(keys, keys, id);
    SurvivorsNoMatch(Survivors(s, keys, id), Survivors(keys, keys, id), id);
  }

  /** Lookup finds nothing exactly when no ID matches. */
  lemma FindNothing(keys: seq<string>, id: string)
    ensures FirstIndex(keys, id) == |keys| <==> id !in keys
  {
  }

  /** Update is delete-then-add: the survivors keep their order and the new entity comes last;
      when it carries the deleted ID, a lookup of that ID then finds the new entity. */
  lemma UpdateFindsReplacement<T>(s: seq<T>, keys: seq<string>, id: string, e: T)
    requires |s| == |keys|
    ensures var r := Survivors(s, keys, id) + [e];
      r[..|r| - 1] == Survivors(s, keys, id) && r[|r| - 1] == e
    ensures var rk := Survivors(keys, keys, id) + [id];
      |rk| == |Survivors(s, keys, id)| + 1 && FirstIndex(rk, id) == |rk| - 1
  {
    SurvivorsIdempotent(s, keys, id);
    var rk := Survivors(keys, keys, id) + [id];
    assert rk[|rk| - 1] == id;
    assert forall j :: 0 <= j < |rk| - 1 ==> rk[j] in Survivors(keys, keys, id);
  }
}
