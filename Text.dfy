/**
  The string primitives the client relies on, written out in Dafny:
  Python's `\s` character class, `re.findall(r"\S+", s)`, `str.join`,
  `str.lower` and `str.capitalize`.
 */
module Text {

  /** Python's `\s` on `str`: exactly the characters for which `str.isspace()` holds. */
  predicate IsSpace(c: char) {
    var n := c as int;
    (9 <= n <= 13) || (28 <= n <= 32) || n == 0x85 || n == 0xA0 || n == 0x1680
    || (0x2000 <= n <= 0x200A) || n == 0x2028 || n == 0x2029 || n == 0x202F
    || n == 0x205F || n == 0x3000
  }

  /** No character of `s` is whitespace (`re.search(r"\s+", s)` finds nothing). */
  predicate NoSpace(s: string) {
    forall i :: 0 <= i < |s| ==> !IsSpace(s[i])
  }

  /** `s` with every whitespace character deleted, the rest kept in order. */
  function Squeeze(s: string): (r: string)
    ensures NoSpace(r) && |r| <= |s|
    ensures NoSpace(s) ==> r == s
  {
    if s == [] then []
    else if IsSpace(s[0]) then Squeeze(s[1..])
    else [s[0]] + Squeeze(s[1..])
  }

  /** The length of the longest prefix of `s` that holds no whitespace. */
  function RunLength(s: string): (n: nat)
    ensures n <= |s|
    ensures NoSpace(s[..n])
    ensures n < |s| ==> IsSpace(s[n])
  {
    if s == [] || IsSpace(s[0]) then 0 else 1 + RunLength(s[1..])
  }

  /** `re.findall(r"\S+", s)`: the maximal runs of non-whitespace characters, left to right. */
  function Runs(s: string): (r: seq<string>)
    decreases |s|
    ensures forall w :: w in r ==> w != [] && NoSpace(w)
  {
    if s == [] then []
    else if IsSpace(s[0]) then Runs(s[1..])
    else
      var n := RunLength(s);
      [s[..n]] + Runs(s[n..])
  }

  /** `sep.join(parts)`. */
  function Join(sep: string, parts: seq<string>): string {
    if parts == [] then []
    else if |parts| == 1 then parts[0]
    else parts[0] + sep + Join(sep, parts[1..])
  }

  /** ASCII upper-casing of one character. */
  function Upper(c: char): char {
    if 'a' <= c <= 'z' then (c as int - 32) as char else c
  }

  /** ASCII lower-casing of one character. */
  function Lower(c: char): char {
    if 'A' <= c <= 'Z' then (c as int + 32) as char else c
  }

  /** `s.lower()`. */
  function LowerAll(s: string): string {
    seq(|s|, i requires 0 <= i < |s| => Lower(s[i]))
  }

  /** `w.capitalize()`: the first character upper-cased, every other one lower-cased. */
  function Capitalize(w: string): (r: string)
    ensures |r| == |w|
  {
    if w == [] then [] else [Upper(w[0])] + LowerAll(w[1..])
  }

  // ---------------------------------------------------------------- lemmas

  /** A run that meets a whitespace character stops there. */
  lemma {:induction false} RunLengthStops(a: string, c: char, b: string)
    requires IsSpace(c)
    ensures RunLength(a + [c] + b) == RunLength(a)
    decreases |a|
  {
    var s := a + [c] + b;
    if a == [] {
      assert s[0] == c;
    } else if !IsSpace(a[0]) {
      assert s[1..] == a[1..] + [c] + b;
      RunLengthStops(a[1..], c, b);
    }
  }

  /** A non-empty word without whitespace is a single run. */
  lemma RunsOfWord(w: string)
    requires w != [] && NoSpace(w)
    ensures Runs(w) == [w]
  {
    var n := RunLength(w);
    assert n == |w|;
    assert w[..n] == w && w[n..] == [];
  }

  /** Splitting at one whitespace character splits the runs: the character is a separator. */
  lemma {:induction false} RunsSplit(a: string, c: char, b: string)
    requires IsSpace(c)
    ensures Runs(a + [c] + b) == Runs(a) + Runs(b)
    decreases |a|
  {
    var s := a + [c] + b;
    if a == [] {
      assert s[0] == c && s[1..] == b;
    } else if IsSpace(a[0]) {
      assert s[0] == a[0] && s[1..] == a[1..] + [c] + b;
      RunsSplit(a[1..], c, b);
    } else {
      var n := RunLength(a);
      RunLengthStops(a, c, b);
      assert s[0] == a[0];
      assert s[..n] == a[..n];
      assert s[n..] == a[n..] + [c] + b;
      RunsSplit(a[n..], c, b);
    }
  }

  /** Runs of a whitespace-joined list of words give back the words. */
  lemma {:induction false} RunsOfJoin(c: char, ws: seq<string>)
    requires IsSpace(c)
    requires forall w :: w in ws ==> w != [] && NoSpace(w)
    ensures Runs(Join([c], ws)) == ws
  {
    if ws == [] {
    } else if |ws| == 1 {
      assert ws[0] in ws;
      RunsOfWord(ws[0]);
    } else {
      assert ws[0] in ws;
      assert forall w :: w in ws[1..] ==> w in ws;
      RunsOfWord(ws[0]);
      RunsOfJoin(c, ws[1..]);
      RunsSplit(ws[0], c, Join([c], ws[1..]));
      assert Join([c], ws) == ws[0] + [c] + Join([c], ws[1..]);
      assert ws == [ws[0]] + ws[1..];
    }
  }

  /** Deleting whitespace distributes over concatenation. */
  lemma {:induction false} SqueezeAppend(a: string, b: string)
    ensures Squeeze(a + b) == Squeeze(a) + Squeeze(b)
    decreases |a|
  {
    if a != [] {
      assert (a + b)[0] == a[0] && (a + b)[1..] == a[1..] + b;
      SqueezeAppend(a[1..], b);
    } else {
      assert a + b == b;
    }
  }

  /** Deleting whitespace from a string is deleting it from both halves of any split. */
  lemma SqueezeSplit(s: string, n: nat)
    requires n <= |s|
    ensures Squeeze(s) == Squeeze(s[..n]) + Squeeze(s[n..])
  {
    assert s == s[..n] + s[n..];
    SqueezeAppend(s[..n], s[n..]);
  }

  /** Concatenating the runs of `s` gives `s` with its whitespace deleted: no character is lost or added. */
  lemma {:induction false} ConcatRuns(s: string)
    ensures Join("", Runs(s)) == Squeeze(s)
    decreases |s|
  {
    if s == [] {
    } else if IsSpace(s[0]) {
      assert Runs(s) == Runs(s[1..]) && Squeeze(s) == Squeeze(s[1..]);
      ConcatRuns(s[1..]);
    } else {
      ConcatRuns(s[RunLength(s)..]);
      ConcatFirstRun(s);
    }
  }

  /** The step of ConcatRuns for a string that starts with a run. */
  lemma ConcatFirstRun(s: string)
    requires s != [] && !IsSpace(s[0])
    requires Join("", Runs(s[RunLength(s)..])) == Squeeze(s[RunLength(s)..])
    ensures Join("", Runs(s)) == Squeeze(s)
  {
    var n := RunLength(s);
    RunsFirst(s);
    ConcatCons(s[..n], Runs(s[n..]));
    SqueezeSplit(s, n);
  }

  /** A string that starts with a run: that run, then the runs of the rest. */
  lemma RunsFirst(s: string)
    requires s != [] && !IsSpace(s[0])
    ensures Runs(s) == [s[..RunLength(s)]] + Runs(s[RunLength(s)..])
    ensures Squeeze(s[..RunLength(s)]) == s[..RunLength(s)]
  {
  }

  /** Joining onto a first part. */
  lemma JoinCons(sep: string, x: string, rest: seq<string>)
    ensures Join(sep, [x] + rest) == if rest == [] then x else x + sep + Join(sep, rest)
  {
    assert ([x] + rest)[1..] == rest;
  }

  /** Joining with the empty separator onto a first part prepends that part. */
  lemma ConcatCons(x: string, rest: seq<string>)
    ensures Join("", [x] + rest) == x + Join("", rest)
  {
    JoinCons("", x, rest);
    if rest == [] {
      assert x + Join("", rest) == x;
    }
  }

  /** Joining two non-empty lists puts exactly one separator between them. */
  lemma {:induction false} JoinAppend(sep: string, xs: seq<string>, ys: seq<string>)
    requires xs != [] && ys != []
    ensures Join(sep, xs + ys) == Join(sep, xs) + sep + Join(sep, ys)
    decreases |xs|
  {
    var x, rest := xs[0], xs[1..];
    assert xs == [x] + rest;
    if rest == [] {
      assert xs + ys == [x] + ys;
      JoinCons(sep, x, ys);
    } else {
      calc {
        Join(sep, xs + ys);
      == { assert xs + ys == [x] + (rest + ys); JoinCons(sep, x, rest + ys); }
        x + sep + Join(sep, rest + ys);
      == { JoinAppend(sep, rest, ys); }
        x + sep + (Join(sep, rest) + sep + Join(sep, ys));
        (x + sep + Join(sep, rest)) + sep + Join(sep, ys);
      == { JoinCons(sep, x, rest); }
        Join(sep, xs) + sep + Join(sep, ys);
      }
    }
  }

  /** Joining with the empty separator is plain concatenation, also for empty lists. */
  lemma ConcatAppend(xs: seq<string>, ys: seq<string>)
    ensures Join("", xs + ys) == Join("", xs) + Join("", ys)
  {
    if xs == [] {
      assert xs + ys == ys;
    } else if ys == [] {
      assert xs + ys == xs;
    } else {
      JoinAppend("", xs, ys);
    }
  }

  /** Joining whitespace-free parts with a whitespace-free separator yields no whitespace. */
  lemma {:induction false} JoinNoSpace(sep: string, parts: seq<string>)
    requires NoSpace(sep)
    requires forall w :: w in parts ==> NoSpace(w)
    ensures NoSpace(Join(sep, parts))
  {
    if |parts| > 1 {
      JoinNoSpace(sep, parts[1..]);
      assert parts[0] in parts;
      var j := Join(sep, parts[1..]);
      assert Join(sep, parts) == parts[0] + sep + j;
      forall i | 0 <= i < |parts[0] + sep + j| ensures !IsSpace((parts[0] + sep + j)[i]) {
        if i < |parts[0]| {
        } else if i < |parts[0]| + |sep| {
          assert (parts[0] + sep + j)[i] == sep[i - |parts[0]|];
        } else {
          assert (parts[0] + sep + j)[i] == j[i - |parts[0]| - |sep|];
        }
      }
    } else if |parts| == 1 {
      assert parts[0] in parts;
    }
  }

  /** Case mapping never creates or removes whitespace. */
  lemma CaseKeepsSpace(c: char)
    ensures IsSpace(Upper(c)) == IsSpace(c) && IsSpace(Lower(c)) == IsSpace(c)
  {
  }

  /** Capitalizing keeps a word free of whitespace. */
  lemma CapitalizeKeepsNoSpace(w: string)
    requires NoSpace(w)
    ensures NoSpace(Capitalize(w))
  {
    var r := Capitalize(w);
    forall i | 0 <= i < |r| ensures !IsSpace(r[i]) {
      CaseKeepsSpace(w[i]);
      assert r[i] == if i == 0 then Upper(w[0]) else Lower(w[i]);
    }
  }

  /** A capitalized word lower-cases to what the word itself lower-cases to. */
  lemma CapitalizeLowers(w: string)
    ensures LowerAll(Capitalize(w)) == LowerAll(w)
  {
    var r := Capitalize(w);
    forall i | 0 <= i < |w| ensures LowerAll(r)[i] == LowerAll(w)[i] {
      assert r[i] == if i == 0 then Upper(w[0]) else Lower(w[i]);
    }
  }

  /** Capitalizing a capitalized word changes nothing. */
  lemma CapitalizeIdempotent(w: string)
    ensures Capitalize(Capitalize(w)) == Capitalize(w)
  {
    var r := Capitalize(w);
    if w != [] {
      forall i | 0 <= i < |w| ensures Capitalize(r)[i] == r[i] {
        assert r[i] == if i == 0 then Upper(w[0]) else Lower(w[i]);
      }
    }
  }
}
