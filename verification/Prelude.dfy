/** Small vocabulary shared by the modules of this project. */
module Prelude {
  datatype Option<+T> = None | Some(value: T)

  /** The configuration of a listener: its id, and everything else in it. */
  datatype Config = Config(id: string, settings: string)

  /** Reading a Go map: a missing key yields zero. */
  function CountOf(counts: map<string, int>, key: string): int {
    if key in counts then counts[key] else 0
  }

  /** A key made of two parts can be split again if there is no colon in the first parts, or
      none in the second ones. */
  lemma ColonSplits(a: string, b: string, c: string, d: string)
    requires a + ":" + b == c + ":" + d
    requires (':' !in a && ':' !in c) || (':' !in b && ':' !in d)
    ensures a == c && b == d
  {
    if |a| < |c| {
      ColonWithin(a, b, c, d);
    } else if |c| < |a| {
      ColonWithin(c, d, a, b);
    } else {
      assert a == (a + ":" + b)[..|a|] == c;
      assert b == (a + ":" + b)[|a| + 1..] == d;
    }
  }

  lemma ColonWithin(a: string, b: string, c: string, d: string)
    requires a + ":" + b == c + ":" + d && |a| < |c|
    ensures ':' in c && ':' in b
  {
    var key := a + ":" + b;
    assert key[|a|] == c[|a|];
    assert key[|c|] == b[|c| - |a| - 1];
  }

  /** The keys that a map sends to the value v. */
  function Preimage<K, V(==)>(m: map<K, V>, v: V): set<K> {
    set k | k in m && m[k] == v
  }

  /** Adding a fresh key grows one preimage by exactly that key and leaves the others alone. */
  lemma PreimageAdd<K, V>(m: map<K, V>, k: K, v: V, w: V)
    requires k !in m
    ensures |Preimage(m[k := v], w)| == |Preimage(m, w)| + (if v == w then 1 else 0)
  {
    var grown := m[k := v];
    if v == w {
      assert Preimage(grown, w) == Preimage(m, w) + {k};
    } else {
      assert Preimage(grown, w) == Preimage(m, w);
    }
  }

  /** Removing a key shrinks the preimage of its value by one and leaves the others alone. */
  lemma PreimageRemove<K, V>(m: map<K, V>, k: K, w: V)
    requires k in m
    ensures |Preimage(m - {k}, w)| == |Preimage(m, w)| - (if m[k] == w then 1 else 0)
  {
    if m[k] == w {
      assert Preimage(m - {k}, w) == Preimage(m, w) - {k};
    } else {
      assert Preimage(m - {k}, w) == Preimage(m, w);
    }
  }

  lemma ConcatHead<T>(xs: seq<T>, ys: seq<T>)
    requires xs != []
    ensures xs + ys == [xs[0]] + (xs[1..] + ys)
  {
  }

  /** The values that are present, in order. */
  function Somes<T>(xs: seq<Option<T>>): seq<T> {
    if xs == [] then []
    else
      var last := xs[|xs| - 1];
      Somes(xs[..|xs| - 1]) + if last.Some? then [last.value] else []
  }

  lemma {:induction false} SomesNone<T>(xs: seq<Option<T>>)
    requires forall i :: 0 <= i < |xs| ==> xs[i].None?
    ensures Somes(xs) == []
  {
    if xs != [] {
      SomesNone(xs[..|xs| - 1]);
    }
  }

  lemma {:induction false} SomesConcat<T>(xs: seq<Option<T>>, ys: seq<Option<T>>)
    ensures Somes(xs + ys) == Somes(xs) + Somes(ys)
  {
    if ys == [] {
      assert xs + ys == xs;
    } else {
      assert (xs + ys)[..|xs + ys| - 1] == xs + ys[..|ys| - 1];
      SomesConcat(xs, ys[..|ys| - 1]);
    }
  }

  lemma {:induction false} SomesOne<T>(xs: seq<Option<T>>, k: nat)
    requires k < |xs| && xs[k].Some?
    requires forall i :: 0 <= i < |xs| && i != k ==> xs[i].None?
    ensures Somes(xs) == [xs[k].value]
  {
    if k == |xs| - 1 {
      SomesNone(xs[..|xs| - 1]);
    } else {
      SomesOne(xs[..|xs| - 1], k);
    }
  }

  function Single<T>(x: Option<T>): seq<T> {
    if x.Some? then [x.value] else []
  }

  /** A sequence that grows by one optional value a step ends up with the values present. */
  lemma {:induction false} SomesGrow<T>(grown: seq<seq<T>>, xs: seq<Option<T>>)
    requires |grown| == |xs| + 1 && grown[0] == []
    requires forall k :: 0 <= k < |xs| ==> grown[k + 1] == grown[k] + Single(xs[k])
    ensures grown[|xs|] == Somes(xs)
  {
    if xs != [] {
      SomesGrow(grown[..|xs|], xs[..|xs| - 1]);
    }
  }

  /** If a value is present exactly where the name fits and `known` holds, and names do not
      repeat, then one value is present or none. */
  lemma SomesTally<T>(xs: seq<Option<T>>, names: seq<string>, known: seq<bool>, name: string)
    requires |xs| == |names| == |known|
    requires forall i :: 0 <= i < |xs| ==> (xs[i].Some? <==> names[i] == name && known[i])
    requires forall i, j :: 0 <= i < j < |names| ==> names[i] != names[j]
    ensures |Somes(xs)| == if exists i :: 0 <= i < |xs| && names[i] == name && known[i] then 1 else 0
  {
    if i :| 0 <= i < |xs| && names[i] == name && known[i] {
      SomesOne(xs, i);
    } else {
      SomesNone(xs);
    }
  }

  /** The places where a value is present. */
  function Places<T>(xs: seq<Option<T>>): set<nat> {
    set i: nat | i < |xs| && xs[i].Some?
  }

  lemma {:induction false} SomesCount<T>(xs: seq<Option<T>>)
    ensures |Somes(xs)| == |Places(xs)|
  {
    if xs == [] {
      assert Places(xs) == {};
    } else {
      var n := |xs| - 1;
      SomesCount(xs[..n]);
      assert Places(xs) == Places(xs[..n]) + if xs[n].Some? then {n} else {};
    }
  }

  /** A set has at most one member exactly if no two of its members differ. */
  lemma AtMostOne(s: set<nat>)
    ensures |s| <= 1 <==> forall j, k :: j in s && k in s ==> j == k
  {
    if j, k :| j in s && k in s && j != k {
      assert {j, k} <= s;
      SubsetSize({j, k}, s);
    } else if i :| i in s {
      assert s == {i};
    }
  }

  lemma {:induction false} SubsetSize<T>(s: set<T>, t: set<T>)
    requires s <= t
    ensures |s| <= |t|
  {
    if s != {} {
      var x :| x in s;
      SubsetSize(s - {x}, t - {x});
    }
  }

  function Flatten<T>(xss: seq<seq<T>>): seq<T> {
    if xss == [] then [] else Flatten(xss[..|xss| - 1]) + xss[|xss| - 1]
  }

  lemma {:induction false} FlattenConcat<T>(xss: seq<seq<T>>, yss: seq<seq<T>>)
    ensures Flatten(xss + yss) == Flatten(xss) + Flatten(yss)
  {
    if yss == [] {
      assert xss + yss == xss;
    } else {
      var init, last := yss[..|yss| - 1], yss[|yss| - 1];
      assert (xss + yss)[..|xss + yss| - 1] == xss + init;
      FlattenConcat(xss, init);
      assert Flatten(xss) + Flatten(init) + last == Flatten(xss) + (Flatten(init) + last);
    }
  }

  lemma {:induction false} FlattenNone<T>(xss: seq<seq<T>>)
    requires forall i :: 0 <= i < |xss| ==> xss[i] == []
    ensures Flatten(xss) == []
  {
    if xss != [] {
      FlattenNone(xss[..|xss| - 1]);
    }
  }

  lemma {:induction false} FlattenOne<T>(xss: seq<seq<T>>, k: nat)
    requires k < |xss|
    requires forall i :: 0 <= i < |xss| && i != k ==> xss[i] == []
    ensures Flatten(xss) == xss[k]
  {
    if k == |xss| - 1 {
      FlattenNone(xss[..|xss| - 1]);
    } else {
      FlattenOne(xss[..|xss| - 1], k);
    }
  }

  /** A sequence that grows by one piece a step ends up with all pieces. */
  lemma {:induction false} FlattenGrow<T>(grown: seq<seq<T>>, xss: seq<seq<T>>)
    requires |grown| == |xss| + 1 && grown[0] == []
    requires forall k :: 0 <= k < |xss| ==> grown[k + 1] == grown[k] + xss[k]
    ensures grown[|xss|] == Flatten(xss)
  {
    if xss != [] {
      FlattenGrow(grown[..|xss|], xss[..|xss| - 1]);
    }
  }

  ghost predicate Distinct<K, V>(m: map<K, V>) {
    forall j, k :: j in m && k in m && j != k ==> m[j] != m[k]
  }

  /** A map without repeated values has as many values as keys. */
  lemma {:induction false} DistinctSize<K, V>(m: map<K, V>)
    requires Distinct(m)
    ensures |m| == |m.Values|
    decreases |m|
  {
    if m != map[] {
      var k :| k in m;
      var rest := m - {k};
      DistinctSize(rest);
      assert m.Values == rest.Values + {m[k]} by {
        forall v
          ensures v in m.Values <==> v in rest.Values + {m[k]}
        {
          if v in m.Values {
            var j :| j in m && m[j] == v;
            if j != k {
              assert rest[j] == v;
            }
          }
        }
      }
      assert m.Keys == rest.Keys + {k};
    }
  }
}
