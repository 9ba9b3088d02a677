/**
  The user-agent registry of the client: how a component key and value are sanitized
  before they are stored, and how the stored components become the `User-Agent` header.
 */
module UserAgent {
  import opened Text
  import opened OrderedMap

  /** The name and version the client announces first. */
  const ClientName := "Ewarehousing"
  const ClientVersion := "0.1.0"
  /** The key under which the runtime version is announced second. */
  const RuntimeName := "Python"

  /** `[w.capitalize() for w in ws]`. */
  function CapitalizeAll(ws: seq<string>): seq<string> {
    seq(|ws|, i requires 0 <= i < |ws| => Capitalize(ws[i]))
  }

  /**
    A sanitized key: the whitespace-separated fragments of `key`, each capitalized,
    concatenated without separator ("order status" becomes "OrderStatus").
   */
  function SanitizeKey(key: string): (k: string)
    ensures NoSpace(k)
  {
    var parts := CapitalizeAll(Runs(key));
    assert forall w :: w in parts ==> NoSpace(w) by {
      forall w | w in parts ensures NoSpace(w) {
        var i :| 0 <= i < |parts| && parts[i] == w;
        assert Runs(key)[i] in Runs(key);
        CapitalizeKeepsNoSpace(Runs(key)[i]);
      }
    }
    JoinNoSpace("", parts);
    Join("", parts)
  }

  /**
    A sanitized value: a value holding whitespace is rebuilt from its non-whitespace runs
    joined by "_"; a value without whitespace is kept as it is.
   */
  function SanitizeValue(value: string): (v: string)
    ensures NoSpace(v)
    ensures NoSpace(value) ==> v == value
  {
    if NoSpace(value) then value
    else
      JoinNoSpace("_", Runs(value));
      Join("_", Runs(value))
  }

  /** One component as it appears in the header: `key/value`. */
  function Item(key: string, value: string): string {
    key + "/" + value
  }

  /** `" ".join("/".join(x) for x in components.items())`. */
  function Serialize(cs: Pairs): string {
    Join(" ", seq(|cs|, i requires 0 <= i < |cs| => Item(cs[i].0, cs[i].1)))
  }

  /** Splits one `key/value` item at its first "/". */
  function SplitItem(item: string): (string, string) {
    if item == [] then ([], [])
    else if item[0] == '/' then ([], item[1..])
    else
      var (k, v) := SplitItem(item[1..]);
      ([item[0]] + k, v)
  }

  /** Reads a `User-Agent` string back into its components: the reference for Serialize. */
  function Parse(ua: string): Pairs {
    var items := Runs(ua);
    seq(|items|, i requires 0 <= i < |items| => SplitItem(items[i]))
  }

  /** Components that the header format can carry: no whitespace anywhere, no "/" in a key. */
  predicate WellFormed(cs: Pairs) {
    forall i :: 0 <= i < |cs| ==> NoSpace(cs[i].0) && NoSpace(cs[i].1) && '/' !in cs[i].0
  }

  // ---------------------------------------------------------------- lemmas

  /** Capitalizing fragment lists distributes over concatenation. */
  lemma CapitalizeAllAppend(xs: seq<string>, ys: seq<string>)
    ensures CapitalizeAll(xs + ys) == CapitalizeAll(xs) + CapitalizeAll(ys)
  {
  }

  /** A single word is sanitized to its capitalized form. */
  lemma SanitizeKeyOfWord(w: string)
    requires w != [] && NoSpace(w)
    ensures SanitizeKey(w) == Capitalize(w)
  {
    RunsOfWord(w);
    assert CapitalizeAll([w]) == [Capitalize(w)];
  }

  /** A whitespace character in a key separates two fragments that are sanitized independently. */
  lemma SanitizeKeySplit(a: string, c: char, b: string)
    requires IsSpace(c)
    ensures SanitizeKey(a + [c] + b) == SanitizeKey(a) + SanitizeKey(b)
  {
    RunsSplit(a, c, b);
    CapitalizeAllAppend(Runs(a), Runs(b));
    ConcatAppend(CapitalizeAll(Runs(a)), CapitalizeAll(Runs(b)));
  }

  /** Lower-casing distributes over concatenation. */
  lemma LowerAllAppend(a: string, b: string)
    ensures LowerAll(a + b) == LowerAll(a) + LowerAll(b)
  {
  }

  /** Up to letter case, concatenated capitalized fragments equal the plain concatenation. */
  lemma {:induction false} LowerConcatCapitalized(ws: seq<string>)
    ensures LowerAll(Join("", CapitalizeAll(ws))) == LowerAll(Join("", ws))
  {
    if ws != [] {
      var x, rest := ws[0], ws[1..];
      assert ws == [x] + rest;
      assert CapitalizeAll(ws) == [Capitalize(x)] + CapitalizeAll(rest);
      calc {
        LowerAll(Join("", CapitalizeAll(ws)));
      == { ConcatAppend([Capitalize(x)], CapitalizeAll(rest)); }
        LowerAll(Capitalize(x) + Join("", CapitalizeAll(rest)));
      == { LowerAllAppend(Capitalize(x), Join("", CapitalizeAll(rest))); }
        LowerAll(Capitalize(x)) + LowerAll(Join("", CapitalizeAll(rest)));
      == { CapitalizeLowers(x); LowerConcatCapitalized(rest); }
        LowerAll(x) + LowerAll(Join("", rest));
      == { LowerAllAppend(x, Join("", rest)); }
        LowerAll(x + Join("", rest));
      == { ConcatAppend([x], rest); }
        LowerAll(Join("", ws));
      }
    }
  }

  /**
    Sanitizing a key only deletes whitespace and changes letter case: lower-cased, it is
    the lower-cased key with its whitespace removed, and it is no longer than the key.
   */
  lemma SanitizeKeyFolds(key: string)
    ensures LowerAll(SanitizeKey(key)) == LowerAll(Squeeze(key))
    ensures |SanitizeKey(key)| == |Squeeze(key)|
  {
    LowerConcatCapitalized(Runs(key));
    ConcatRuns(key);
  }

  /** A word of lower-case ASCII letters is its own runs and capitalizes by upper-casing its first letter. */
  lemma LowerWord(w: string)
    requires w != [] && forall i :: 0 <= i < |w| ==> 'a' <= w[i] <= 'z'
    ensures NoSpace(w) && Runs(w) == [w]
    ensures SanitizeKey(w) == [Upper(w[0])] + w[1..]
  {
    assert LowerAll(w[1..]) == w[1..];
    RunsOfWord(w);
    SanitizeKeyOfWord(w);
  }

  /** A word already in capitalized form (an upper-case letter, then lower-case ones) is kept. */
  lemma CapitalizedWord(w: string)
    requires w != [] && 'A' <= w[0] <= 'Z' && forall i :: 1 <= i < |w| ==> 'a' <= w[i] <= 'z'
    ensures SanitizeKey(w) == w
  {
    assert NoSpace(w);
    assert LowerAll(w[1..]) == w[1..];
    SanitizeKeyOfWord(w);
    assert [w[0]] + w[1..] == w;
  }

  /** The client name is already in capitalized form, so sanitizing keeps it. */
  lemma ClientNameKept(client: string)
    requires client == ClientName
    ensures SanitizeKey(client) == client
  {
    CapitalizedWord(client);
  }

  /** The runtime name is already in capitalized form, so sanitizing keeps it. */
  lemma RuntimeNameKept(runtime: string)
    requires runtime == RuntimeName
    ensures SanitizeKey(runtime) == runtime
  {
    CapitalizedWord(runtime);
  }

  /** The client version holds no whitespace, so it is stored as it is. */
  lemma ClientVersionKept(version: string)
    requires version == ClientVersion
    ensures SanitizeValue(version) == version
  {
    assert NoSpace(version) by {
      forall i | 0 <= i < |version| ensures !IsSpace(version[i]) {
        assert version[i] == '.' || '0' <= version[i] <= '9';
      }
    }
  }

  /**
    Two components with different keys registered into an empty registry stay in
    registration order and are serialized as their two items separated by one space.
   */
  lemma InitialComponents(client: string, version: string, runtime: string, v: string)
    requires client != runtime
    ensures Put(Put([], client, version), runtime, v) == [(client, version), (runtime, v)]
    ensures Serialize([(client, version), (runtime, v)]) == Item(client, version) + " " + Item(runtime, v)
  {
    PutAppends([(client, version)], runtime, v);
    SerializeAppend([(client, version)], runtime, v);
    assert [(client, version)] + [(runtime, v)] == [(client, version), (runtime, v)];
  }

  /**
    Two lower-case words separated by whitespace are stored as one key with both words
    capitalized ("order status" becomes "OrderStatus").
   */
  lemma SanitizeKeyTwoWords(a: string, c: char, b: string)
    requires a != [] && forall i :: 0 <= i < |a| ==> 'a' <= a[i] <= 'z'
    requires b != [] && forall i :: 0 <= i < |b| ==> 'a' <= b[i] <= 'z'
    requires IsSpace(c)
    ensures SanitizeKey(a + [c] + b) == [Upper(a[0])] + a[1..] + [Upper(b[0])] + b[1..]
  {
    LowerWord(a);
    LowerWord(b);
    SanitizeKeySplit(a, c, b);
  }

  /** The no-whitespace guard is redundant: every value is sanitized to its runs joined by "_". */
  lemma SanitizeValueJoinsRuns(value: string)
    ensures SanitizeValue(value) == Join("_", Runs(value))
  {
    if NoSpace(value) && value != [] {
      RunsOfWord(value);
    }
  }

  /**
    A whitespace character between two parts that both hold a non-whitespace character
    becomes exactly one "_" between their sanitized forms.
   */
  lemma SanitizeValueSplit(a: string, c: char, b: string)
    requires IsSpace(c) && Runs(a) != [] && Runs(b) != []
    ensures SanitizeValue(a + [c] + b) == SanitizeValue(a) + "_" + SanitizeValue(b)
  {
    SanitizeValueJoinsRuns(a + [c] + b);
    SanitizeValueJoinsRuns(a);
    SanitizeValueJoinsRuns(b);
    RunsSplit(a, c, b);
    JoinAppend("_", Runs(a), Runs(b));
  }

  /**
    Two whitespace-free words separated by whitespace are stored joined by "_"
    ("in progress" becomes "in_progress").
   */
  lemma SanitizeValueTwoWords(a: string, c: char, b: string)
    requires a != [] && NoSpace(a) && b != [] && NoSpace(b) && IsSpace(c)
    ensures SanitizeValue(a + [c] + b) == a + "_" + b
  {
    RunsOfWord(a);
    RunsOfWord(b);
    SanitizeValueSplit(a, c, b);
  }

  /** Splitting `key/value` at its first "/" recovers the key when the key holds no "/". */
  lemma {:induction false} SplitItemOf(key: string, value: string)
    requires '/' !in key
    ensures SplitItem(Item(key, value)) == (key, value)
  {
    var item := Item(key, value);
    if key == [] {
      assert item[0] == '/' && item[1..] == value;
    } else {
      assert key[0] in key;
      assert item[0] == key[0] && item[1..] == Item(key[1..], value);
      SplitItemOf(key[1..], value);
      assert [key[0]] + key[1..] == key;
    }
  }

  /** Serializing well-formed components and reading the header back gives the same components, in order. */
  lemma SerializeRoundTrip(cs: Pairs)
    requires WellFormed(cs)
    ensures Parse(Serialize(cs)) == cs
  {
    var items := seq(|cs|, i requires 0 <= i < |cs| => Item(cs[i].0, cs[i].1));
    forall w | w in items ensures w != [] && NoSpace(w) {
      var i :| 0 <= i < |items| && items[i] == w;
      var k, v := cs[i].0, cs[i].1;
      assert w == k + "/" + v;
      forall j | 0 <= j < |w| ensures !IsSpace(w[j]) {
        if j < |k| { assert w[j] == k[j]; }
        else if j > |k| { assert w[j] == v[j - |k| - 1]; }
      }
    }
    assert " " == [' '];
    RunsOfJoin(' ', items);
    forall i | 0 <= i < |cs| ensures Parse(Serialize(cs))[i] == cs[i] {
      SplitItemOf(cs[i].0, cs[i].1);
    }
  }

  /** Adding a component after existing ones appends one space and its `key/value` item. */
  lemma SerializeAppend(cs: Pairs, key: string, value: string)
    requires cs != []
    ensures Serialize(cs + [(key, value)]) == Serialize(cs) + " " + Item(key, value)
  {
    var items := seq(|cs|, i requires 0 <= i < |cs| => Item(cs[i].0, cs[i].1));
    var all := cs + [(key, value)];
    assert seq(|all|, i requires 0 <= i < |all| => Item(all[i].0, all[i].1)) == items + [Item(key, value)];
    JoinAppend(" ", items, [Item(key, value)]);
  }

  /** Components set with sanitizing carry no whitespace. */
  lemma SanitizedPutKeepsNoSpace(cs: Pairs, key: string, value: string)
    requires forall i :: 0 <= i < |cs| ==> NoSpace(cs[i].0) && NoSpace(cs[i].1)
    ensures var r := Put(cs, SanitizeKey(key), SanitizeValue(value));
      forall i :: 0 <= i < |r| ==> NoSpace(r[i].0) && NoSpace(r[i].1)
  {
    var k, v := SanitizeKey(key), SanitizeValue(value);
    var r := Put(cs, k, v);
    forall i | 0 <= i < |r| ensures NoSpace(r[i].0) && NoSpace(r[i].1) {
      PutSlot(cs, k, v, i);
    }
  }

  /** Every entry after a put is either the new pair or an entry that was there before. */
  lemma {:induction false} PutSlot(m: Pairs, k: string, v: string, i: nat)
    requires i < |Put(m, k, v)|
    ensures Put(m, k, v)[i] == (k, v) || (i < |m| && Put(m, k, v)[i] == m[i])
  {
    if m != [] && m[0].0 != k && i > 0 {
      PutSlot(m[1..], k, v, i - 1);
    }
  }
}
