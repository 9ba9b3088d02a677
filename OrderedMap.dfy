/**
  Python's insertion-ordered `dict` / `OrderedDict` with string keys and values, as a
  sequence of (key, value) pairs. It holds the user-agent components and the request headers.
 */
module OrderedMap {
  import opened Wrappers

  type Pairs = seq<(string, string)>

  /** The keys, in insertion order. */
  function Keys(m: Pairs): (ks: seq<string>)
    ensures |ks| == |m|
    ensures forall i :: 0 <= i < |m| ==> ks[i] == m[i].0
  {
    if m == [] then [] else [m[0].0] + Keys(m[1..])
  }

  /** Every key occurs once, as in a Python dict. */
  predicate DistinctKeys(m: Pairs) {
    forall i, j :: 0 <= i < j < |m| ==> m[i].0 != m[j].0
  }

  /** `m.get(k)`. */
  function Lookup(m: Pairs, k: string): Option<string> {
    if m == [] then None
    else if m[0].0 == k then Some(m[0].1)
    else Lookup(m[1..], k)
  }

  /** A lookup finds nothing exactly when the key is not among the keys. */
  lemma {:induction false} LookupNone(m: Pairs, k: string)
    ensures Lookup(m, k).None? <==> k !in Keys(m)
  {
    if m != [] {
      LookupNone(m[1..], k);
      assert Keys(m) == [m[0].0] + Keys(m[1..]);
    }
  }

  /**
    `m[k] = v`: an existing key keeps its position and only its value changes;
    a new key is appended last. Every other entry is unchanged.
   */
  function Put(m: Pairs, k: string, v: string): (r: Pairs)
    ensures Keys(r) == if k in Keys(m) then Keys(m) else Keys(m) + [k]
  {
    if m == [] then [(k, v)]
    else if m[0].0 == k then [(k, v)] + m[1..]
    else [m[0]] + Put(m[1..], k, v)
  }

  /** After a put, the key looks up the new value and every other key looks up what it did before. */
  lemma {:induction false} PutLookup(m: Pairs, k: string, v: string)
    ensures Lookup(Put(m, k, v), k) == Some(v)
    ensures forall k' :: k' != k ==> Lookup(Put(m, k, v), k') == Lookup(m, k')
  {
    if m != [] && m[0].0 != k {
      PutLookup(m[1..], k, v);
    }
  }

  /** With distinct keys, the value stored at a position is the value looked up for its key. */
  lemma {:induction false} LookupAt(m: Pairs, i: nat)
    requires DistinctKeys(m) && i < |m|
    ensures Lookup(m, m[i].0) == Some(m[i].1)
  {
    if i > 0 {
      assert m[1..][i - 1] == m[i];
      LookupAt(m[1..], i - 1);
    }
  }

  /** The tail of a map with distinct keys has distinct keys and lacks the head's key. */
  lemma TailDistinct(m: Pairs)
    requires DistinctKeys(m) && m != []
    ensures DistinctKeys(m[1..]) && m[0].0 !in Keys(m[1..])
  {
    forall i, j | 0 <= i < j < |m| - 1 ensures m[1..][i].0 != m[1..][j].0 {
      assert m[1..][i] == m[i + 1] && m[1..][j] == m[j + 1];
    }
    forall i | 0 <= i < |m| - 1 ensures Keys(m[1..])[i] != m[0].0 {
      assert m[1..][i] == m[i + 1];
    }
  }

  /** A key absent from the tail and different from the head is absent from the map. */
  lemma ConsDistinct(x: (string, string), t: Pairs)
    requires DistinctKeys(t) && x.0 !in Keys(t)
    ensures DistinctKeys([x] + t)
  {
    var r := [x] + t;
    forall i, j | 0 <= i < j < |r| ensures r[i].0 != r[j].0 {
      if i > 0 {
        assert r[i] == t[i - 1] && r[j] == t[j - 1];
      } else {
        assert Keys(t)[j - 1] == r[j].0;
      }
    }
  }

  /** Putting keeps keys distinct: the dictionary never holds a key twice. */
  lemma {:induction false} PutDistinct(m: Pairs, k: string, v: string)
    requires DistinctKeys(m)
    ensures DistinctKeys(Put(m, k, v))
  {
    if m != [] {
      TailDistinct(m);
      if m[0].0 == k {
        ConsDistinct((k, v), m[1..]);
      } else {
        PutDistinct(m[1..], k, v);
        ConsDistinct(m[0], Put(m[1..], k, v));
      }
    }
  }

  /** Putting a new key appends it as the last entry. */
  lemma {:induction false} PutAppends(m: Pairs, k: string, v: string)
    requires k !in Keys(m)
    ensures Put(m, k, v) == m + [(k, v)]
  {
    if m != [] {
      assert Keys(m)[0] == m[0].0;
      assert k !in Keys(m[1..]) by {
        forall i | 0 <= i < |m| - 1 ensures Keys(m[1..])[i] != k {
          assert Keys(m[1..])[i] == Keys(m)[i + 1];
        }
      }
      PutAppends(m[1..], k, v);
      calc {
        Put(m, k, v);
        [m[0]] + Put(m[1..], k, v);
        [m[0]] + (m[1..] + [(k, v)]);
      == { assert m == [m[0]] + m[1..]; }
        m + [(k, v)];
      }
    }
  }

  /** Putting a present key rewrites that entry where it stands and leaves every other entry alone. */
  lemma {:induction false} PutInPlace(m: Pairs, k: string, v: string)
    requires DistinctKeys(m) && k in Keys(m)
    ensures |Put(m, k, v)| == |m|
    ensures forall i :: 0 <= i < |m| ==> Put(m, k, v)[i] == if m[i].0 == k then (k, v) else m[i]
  {
    var r := Put(m, k, v);
    TailDistinct(m);
    if m[0].0 == k {
      forall i | 0 < i < |m| ensures m[i].0 != k { }
    } else {
      assert Keys(m) == [m[0].0] + Keys(m[1..]);
      PutInPlace(m[1..], k, v);
      forall i | 0 < i < |m| ensures r[i] == if m[i].0 == k then (k, v) else m[i] {
        assert m[1..][i - 1] == m[i];
      }
    }
  }

  /** Appending a pair whose key is new keeps keys distinct. */
  lemma AppendDistinct(m: Pairs, x: (string, string))
    requires DistinctKeys(m) && x.0 !in Keys(m)
    ensures DistinctKeys(m + [x])
  {
    var r := m + [x];
    forall i, j | 0 <= i < j < |r| ensures r[i].0 != r[j].0 {
      if j == |m| {
        assert Keys(m)[i] == r[i].0;
      } else {
        assert r[i] == m[i] && r[j] == m[j];
      }
    }
  }

  /** Appending a pair leaves every lookup of another key as it was. */
  lemma {:induction false} LookupAppend(m: Pairs, x: (string, string))
    ensures forall k :: k != x.0 ==> Lookup(m + [x], k) == Lookup(m, k)
  {
    if m != [] {
      LookupAppend(m[1..], x);
      assert (m + [x])[1..] == m[1..] + [x];
    }
  }
}
