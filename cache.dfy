/** utils/cache.py: a time-to-live cache kept as one pickle file per key in
    a directory, and the `cached` decorator that serves a function's results
    from it. The directory is a Directory object shared by every TTLCache
    opened on it; the clock is the `now` parameter; md5 hashing of the key
    string is left out (the key string itself names the file). */
module Cache {
  import opened Wrappers
  import opened Format
  import opened Exceptions

  // ---------------------------------------------------------------------
  // Python's ordering of str and `sorted(kwargs.items())`

  /** `a < b` on Python strings: lexicographic by code point, a proper
      prefix first. */
  predicate Below(a: string, b: string)
    decreases |a|
  {
    |b| > 0 && (|a| == 0 || a[0] < b[0] || (a[0] == b[0] && Below(a[1..], b[1..])))
  }

  lemma {:induction false} BelowIrreflexive(a: string)
    ensures !Below(a, a)
    decreases |a|
  {
    if |a| > 0 {
      BelowIrreflexive(a[1..]);
    }
  }

  lemma {:induction false} BelowTransitive(a: string, b: string, c: string)
    requires Below(a, b) && Below(b, c)
    ensures Below(a, c)
    decreases |a|
  {
    if |a| > 0 && a[0] == b[0] && b[0] == c[0] {
      BelowTransitive(a[1..], b[1..], c[1..]);
    }
  }

  lemma {:induction false} BelowTotal(a: string, b: string)
    requires a != b
    ensures Below(a, b) || Below(b, a)
    decreases |a|
  {
    if |a| > 0 && |b| > 0 && a[0] == b[0] {
      assert a == [a[0]] + a[1..] && b == [b[0]] + b[1..];
      BelowTotal(a[1..], b[1..]);
    }
  }

  lemma BelowAsymmetric(a: string, b: string)
    requires Below(a, b)
    ensures !Below(b, a)
  {
    if Below(b, a) {
      BelowTransitive(a, b, a);
      BelowIrreflexive(a);
    }
  }

  /** Keyword arguments in call order; a dict, so no name twice. */
  predicate DistinctNames<A>(kw: seq<(string, A)>) {
    forall i, j :: 0 <= i < j < |kw| ==> kw[i].0 != kw[j].0
  }

  /** Strictly increasing by name. */
  predicate SortedByName<A>(kw: seq<(string, A)>) {
    forall i, j :: 0 <= i < j < |kw| ==> Below(kw[i].0, kw[j].0)
  }

  function Insert<A>(x: (string, A), s: seq<(string, A)>): (r: seq<(string, A)>)
    ensures |r| == |s| + 1
    ensures multiset(r) == multiset(s) + multiset{x}
  {
    if s == [] then [x]
    else if Below(x.0, s[0].0) then [x] + s
    else
      assert s == [s[0]] + s[1..];
      [s[0]] + Insert(x, s[1..])
  }

  /** `sorted(kwargs.items())`: the items ordered by name. */
  function SortByName<A>(kw: seq<(string, A)>): (r: seq<(string, A)>)
    ensures |r| == |kw|
    ensures multiset(r) == multiset(kw)
  {
    if kw == [] then []
    else
      assert kw == [kw[0]] + kw[1..];
      Insert(kw[0], SortByName(kw[1..]))
  }

  lemma {:induction false} InsertSorted<A>(x: (string, A), s: seq<(string, A)>)
    requires SortedByName(s) && forall p | p in s :: p.0 != x.0
    ensures SortedByName(Insert(x, s))
  {
    if s != [] {
      if Below(x.0, s[0].0) {
        forall j | 1 <= j < |s| + 1 ensures Below(x.0, ([x] + s)[j].0) {
          if j > 1 { BelowTransitive(x.0, s[0].0, s[j - 1].0); }
        }
      } else {
        BelowTotal(x.0, s[0].0);
        InsertSorted(x, s[1..]);
        var rest := Insert(x, s[1..]);
        assert multiset(rest) == multiset(s[1..]) + multiset{x};
        forall j | 0 <= j < |rest| ensures Below(s[0].0, rest[j].0) {
          assert rest[j] in multiset(rest);
          if rest[j] != x {
            assert rest[j] in multiset(s[1..]);
            var k :| 0 <= k < |s[1..]| && s[1..][k] == rest[j];
            assert s[k + 1] == rest[j];
          }
        }
      }
    }
  }

  /** Sorting distinct names yields a strictly increasing sequence. */
  lemma {:induction false} SortByNameSorted<A>(kw: seq<(string, A)>)
    requires DistinctNames(kw)
    ensures SortedByName(SortByName(kw))
  {
    if kw != [] {
      var tail := kw[1..];
      assert DistinctNames(tail) by {
        forall i, j | 0 <= i < j < |tail| ensures tail[i].0 != tail[j].0 {
          assert tail[i] == kw[i + 1] && tail[j] == kw[j + 1];
        }
      }
      SortByNameSorted(tail);
      var sorted := SortByName(tail);
      forall p | p in sorted ensures p.0 != kw[0].0 {
        assert p in multiset(sorted);
        assert p in multiset(tail);
        var k :| 0 <= k < |tail| && tail[k] == p;
        assert kw[k + 1] == p;
      }
      InsertSorted(kw[0], sorted);
    }
  }

  /** Two sequences hold the same items (as sets). */
  ghost predicate SameItems<A>(s1: seq<(string, A)>, s2: seq<(string, A)>) {
    (forall p | p in s1 :: p in s2) && (forall p | p in s2 :: p in s1)
  }

  /** Only the empty sequence holds the same items as the empty sequence. */
  lemma SameItemsEmpty<A>(s1: seq<(string, A)>, s2: seq<(string, A)>)
    requires SameItems(s1, s2)
    ensures s1 == [] <==> s2 == []
  {
    if s1 != [] {
      assert s1[0] in s2;
    }
    if s2 != [] {
      assert s2[0] in s1;
    }
  }

  /** The least item of a strictly increasing sequence comes first. */
  lemma SortedHeads<A>(s1: seq<(string, A)>, s2: seq<(string, A)>)
    requires SortedByName(s1) && SortedByName(s2) && SameItems(s1, s2) && s1 != []
    ensures s2 != [] && s1[0] == s2[0]
  {
    assert s1[0] in s2;
    assert s2[0] in s1;
    var j :| 0 <= j < |s2| && s2[j] == s1[0];
    var i :| 0 <= i < |s1| && s1[i] == s2[0];
    if j > 0 {
      assert Below(s2[0].0, s2[j].0);
      if i > 0 {
        assert Below(s1[0].0, s1[i].0);
        BelowAsymmetric(s2[0].0, s2[j].0);
      } else {
        BelowIrreflexive(s1[0].0);
      }
    }
  }

  /** Past the head, a strictly increasing sequence holds no copy of it. */
  lemma SortedTail<A>(s: seq<(string, A)>, p: (string, A))
    requires SortedByName(s) && s != []
    ensures p in s[1..] <==> p in s && p != s[0]
  {
    if p in s[1..] {
      var k :| 0 <= k < |s[1..]| && s[1..][k] == p;
      assert Below(s[0].0, s[k + 1].0);
      BelowIrreflexive(s[0].0);
    }
    assert s == [s[0]] + s[1..];
  }

  /** Two strictly increasing sequences holding the same items are equal. */
  lemma {:induction false} SortedUnique<A>(s1: seq<(string, A)>, s2: seq<(string, A)>)
    requires SortedByName(s1) && SortedByName(s2) && SameItems(s1, s2)
    ensures s1 == s2
  {
    if s1 == [] {
      SameItemsEmpty(s1, s2);
    } else {
      SortedHeads(s1, s2);
      forall p ensures p in s1[1..] <==> p in s2[1..] {
        SortedTail(s1, p);
        SortedTail(s2, p);
      }
      SortedUnique(s1[1..], s2[1..]);
      assert s1 == [s1[0]] + s1[1..] && s2 == [s2[0]] + s2[1..];
    }
  }

  /** The order in which keyword arguments were passed does not change the
      sorted items. */
  lemma SortByNameIgnoresOrder<A>(kw1: seq<(string, A)>, kw2: seq<(string, A)>)
    requires DistinctNames(kw1) && DistinctNames(kw2) && SameItems(kw1, kw2)
    ensures SortByName(kw1) == SortByName(kw2)
  {
    SortByNameSorted(kw1);
    SortByNameSorted(kw2);
    var s1, s2 := SortByName(kw1), SortByName(kw2);
    forall p | p in s1 ensures p in s2 {
      assert p in multiset(s1);
      assert p in kw1;
      assert p in multiset(s2);
    }
    forall p | p in s2 ensures p in s1 {
      assert p in multiset(s2);
      assert p in kw2;
      assert p in multiset(s1);
    }
    SortedUnique(s1, s2);
  }

  // ---------------------------------------------------------------------
  // The cache key

  /** `"|".join(parts)`. */
  function Join(parts: seq<string>): (r: string)
    ensures parts == [] ==> r == ""
  {
    if parts == [] then ""
    else if |parts| == 1 then parts[0]
    else parts[0] + "|" + Join(parts[1..])
  }

  /** The key string `cached` builds from the function's module and
      qualified name, `str(arg)` of each positional argument and `k=v` for
      each keyword argument in sorted order. */
  function JoinedKey(moduleName: string, qualname: string, argTexts: seq<string>,
                     kwTexts: seq<(string, string)>): string
  {
    Join([moduleName, qualname] + argTexts + seq(|kwTexts|, i requires 0 <= i < |kwTexts| => kwTexts[i].0 + "=" + kwTexts[i].1))
  }

  /** The joined key of a call with one positional argument and no
      keyword arguments. */
  lemma JoinedKeyOneArg(m: string, q: string, x: string)
    ensures JoinedKey(m, q, [x], []) == m + "|" + q + "|" + x
  {
    assert [m, q] + [x] + [] == [m, q, x];
    assert [m, q, x][1..] == [q, x] && [q, x][1..] == [x];
    assert Join([q, x]) == q + "|" + x;
    assert Join([m, q, x]) == m + "|" + (q + "|" + x);
  }

  /** The joined key of a call with two positional arguments and no
      keyword arguments. */
  lemma JoinedKeyTwoArgs(m: string, q: string, x: string, y: string)
    ensures JoinedKey(m, q, [x, y], []) == m + "|" + q + "|" + x + "|" + y
  {
    assert [m, q] + [x, y] + [] == [m, q, x, y];
    assert [m, q, x, y][1..] == [q, x, y] && [q, x, y][1..] == [x, y] && [x, y][1..] == [y];
    assert Join([x, y]) == x + "|" + y;
    assert Join([q, x, y]) == q + "|" + (x + "|" + y);
    assert Join([m, q, x, y]) == m + "|" + (q + "|" + (x + "|" + y));
  }

  /** The joined key of a call with one keyword argument only. */
  lemma JoinedKeyOneKeyword(m: string, q: string, k: string, v: string)
    ensures JoinedKey(m, q, [], [(k, v)]) == m + "|" + q + "|" + k + "=" + v
  {
    var kw := [(k, v)];
    var items := seq(|kw|, i requires 0 <= i < |kw| => kw[i].0 + "=" + kw[i].1);
    assert items == [k + "=" + v];
    assert [m, q] + [] + items == [m, q, k + "=" + v];
    assert [m, q, k + "=" + v][1..] == [q, k + "=" + v] && [q, k + "=" + v][1..] == [k + "=" + v];
    assert Join([q, k + "=" + v]) == q + "|" + (k + "=" + v);
    assert Join([m, q, k + "=" + v]) == m + "|" + (q + "|" + (k + "=" + v));
  }

  /** The joined key is not unique: a "|" inside an argument, or a
      positional argument that reads like a keyword one, gives the key of
      a different call, whose cached result is then served. */
  lemma JoinedKeyCollides(m: string, q: string)
    ensures ["a|b"] != ["a", "b"] && JoinedKey(m, q, ["a|b"], []) == JoinedKey(m, q, ["a", "b"], [])
    ensures JoinedKey(m, q, ["x=1"], []) == JoinedKey(m, q, [], [("x", "1")])
  {
    assert ["a|b"][0] != ["a", "b"][0];
    JoinedKeyOneArg(m, q, "a|b");
    JoinedKeyTwoArgs(m, q, "a", "b");
    assert m + "|" + q + "|" + "a" + "|" + "b" == m + "|" + q + "|" + "a|b";
    JoinedKeyOneArg(m, q, "x=1");
    JoinedKeyOneKeyword(m, q, "x", "1");
    assert m + "|" + q + "|" + "x" + "=" + "1" == m + "|" + q + "|" + "x=1";
  }

  /** The position of the first ':' in `s` (or `|s|`). */
  function FirstColon(s: string): nat {
    if s == [] || s[0] == ':' then 0 else 1 + FirstColon(s[1..])
  }

  lemma {:induction false} FirstColonAfterDigits(d: string, rest: string)
    requires forall i :: 0 <= i < |d| ==> IsDigit(d[i])
    ensures FirstColon(d + ":" + rest) == |d|
  {
    if d != [] {
      assert (d + ":" + rest)[1..] == d[1..] + ":" + rest;
      FirstColonAfterDigits(d[1..], rest);
    }
  }

  /** One part of the key written as its length, ':' and its text, so that
      no text can be mistaken for a separator. */
  function Framed(p: string): (r: string)
    ensures |r| > |p|
  {
    NatToString(|p|) + ":" + p
  }

  lemma FramedSplit(p: string, q: string, x: string, y: string)
    requires Framed(p) + x == Framed(q) + y
    ensures p == q && x == y
  {
    var dp, dq := NatToString(|p|), NatToString(|q|);
    var s := Framed(p) + x;
    assert s == dp + ":" + (p + x);
    assert s == dq + ":" + (q + y);
    FirstColonAfterDigits(dp, p + x);
    FirstColonAfterDigits(dq, q + y);
    assert dp == s[..|dp|] == dq;
    ParseNatToString(|p|);
    ParseNatToString(|q|);
    assert s[|dp| + 1..] == p + x == q + y;
    assert p == (p + x)[..|p|] == (q + y)[..|q|] == q;
    assert x == (p + x)[|p|..] == (q + y)[|q|..] == y;
  }

  /** The framed parts, one after the other. */
  function Encode(parts: seq<string>): (r: string)
    ensures |r| == 0 <==> parts == []
  {
    if parts == [] then "" else Framed(parts[0]) + Encode(parts[1..])
  }

  /** Different part lists always encode differently. */
  lemma {:induction false} EncodeInjective(ps: seq<string>, qs: seq<string>)
    requires Encode(ps) == Encode(qs)
    ensures ps == qs
  {
    if ps != [] {
      FramedSplit(ps[0], qs[0], Encode(ps[1..]), Encode(qs[1..]));
      EncodeInjective(ps[1..], qs[1..]);
      assert ps == [ps[0]] + ps[1..] && qs == [qs[0]] + qs[1..];
    }
  }

  /** Keyword items flattened to name, text, name, text, ... */
  function Flatten(kw: seq<(string, string)>): (r: seq<string>)
    ensures |r| == 2 * |kw|
    ensures forall i :: 0 <= i < |kw| ==> r[2 * i] == kw[i].0 && r[2 * i + 1] == kw[i].1
  {
    if kw == [] then [] else [kw[0].0, kw[0].1] + Flatten(kw[1..])
  }

  /** The unique key: module, qualified name, the number of positional
      arguments, their texts, then the sorted keyword names and texts, each
      part framed. */
  function CallKey(moduleName: string, qualname: string, argTexts: seq<string>,
                   kwTexts: seq<(string, string)>): string
  {
    Encode([moduleName, qualname, NatToString(|argTexts|)] + argTexts + Flatten(kwTexts))
  }

  /** Two calls share a key only when they agree on the function, on every
      positional argument's text and on every keyword item's text. */
  lemma CallKeyInjective(m1: string, q1: string, a1: seq<string>, k1: seq<(string, string)>,
                         m2: string, q2: string, a2: seq<string>, k2: seq<(string, string)>)
    requires CallKey(m1, q1, a1, k1) == CallKey(m2, q2, a2, k2)
    ensures m1 == m2 && q1 == q2 && a1 == a2 && k1 == k2
  {
    var p1 := [m1, q1, NatToString(|a1|)] + a1 + Flatten(k1);
    var p2 := [m2, q2, NatToString(|a2|)] + a2 + Flatten(k2);
    EncodeInjective(p1, p2);
    assert p1[2] == p2[2];
    ParseNatToString(|a1|);
    ParseNatToString(|a2|);
    assert a1 == p1[3..3 + |a1|] == p2[3..3 + |a2|] == a2;
    assert Flatten(k1) == p1[3 + |a1|..] == p2[3 + |a2|..] == Flatten(k2);
    assert |k1| == |k2|;
    forall i | 0 <= i < |k1| ensures k1[i] == k2[i] {
      assert Flatten(k1)[2 * i] == Flatten(k2)[2 * i];
      assert Flatten(k1)[2 * i + 1] == Flatten(k2)[2 * i + 1];
    }
  }

  // ---------------------------------------------------------------------
  // TTLCache

  /** What a cache file holds: a pickled value (None pickles too), or bytes
      that `pickle.load` rejects with EOFError or UnpicklingError. */
  datatype Payload<V> = Pickled(value: Option<V>) | Unreadable

  /** A cache file: its payload and its modification time in seconds. */
  datatype Entry<V> = Entry(payload: Payload<V>, mtime: int)

  /** What `get(key)` returns at time `now` from the files `files`: the
      stored value while its age is at most the time to live, else None. */
  function Read<V>(files: map<string, Entry<V>>, ttlSeconds: int, key: string, now: int): (r: Option<V>)
    ensures r.Some? ==> key in files && now - files[key].mtime <= ttlSeconds && files[key].payload == Pickled(r)
    ensures key !in files || now - files[key].mtime > ttlSeconds || files[key].payload.Unreadable? ==> r.None?
  {
    if key !in files then None
    else if now - files[key].mtime > ttlSeconds then None
    else match files[key].payload
      case Unreadable => None
      case Pickled(v) => v
  }

  /** A value written at `t` is read back while its age is at most the
      time to live, an age equal to it included. */
  lemma ReadAfterWrite<V>(files: map<string, Entry<V>>, ttlSeconds: int, key: string, v: Option<V>, t: int, now: int)
    requires now - t <= ttlSeconds
    ensures Read(files[key := Entry(Pickled(v), t)], ttlSeconds, key, now) == v
  {
  }

  /** Writing one key leaves every other key's reads as they were. */
  lemma ReadOtherKey<V>(files: map<string, Entry<V>>, ttlSeconds: int, key: string, e: Entry<V>, other: string, now: int)
    requires other != key
    ensures Read(files[key := e], ttlSeconds, other, now) == Read(files, ttlSeconds, other, now)
  {
  }

  /** The cache directory: one file per key, shared by every TTLCache
      opened on it. */
  class Directory<V> {
    var files: map<string, Entry<V>>

    constructor(files: map<string, Entry<V>>)
      ensures this.files == files
    {
      this.files := files;
    }
  }

  class TTLCache<V> {
    const directory: Directory<V>
    const ttlSeconds: int

    /** `TTLCache(cache_dir, ttl_seconds=3600)`. */
    constructor(directory: Directory<V>, ttlSeconds: int := 3600)
      ensures this.directory == directory && this.ttlSeconds == ttlSeconds
    {
      this.directory := directory;
      this.ttlSeconds := ttlSeconds;
    }

    /** `get(key)`: None for a missing file, an expired one or one pickle
      cannot load. */
    method Get(key: string, now: int) returns (r: Option<V>)
      ensures r == Read(directory.files, ttlSeconds, key, now)
    {
      if key !in directory.files {
        return None;
      }
      var entry := directory.files[key];
      if now - entry.mtime > ttlSeconds {
        return None;
      }
      match entry.payload
      case Unreadable => r := None;
      case Pickled(v) => r := v;
    }

    /** `set(key, value)`: (over)writes the key's file, whose modification
        time becomes `now`. */
    method Set(key: string, value: Option<V>, now: int)
      modifies directory
      ensures directory.files == old(directory.files)[key := Entry(Pickled(value), now)]
    {
      directory.files := directory.files[key := Entry(Pickled(value), now)];
    }
  }

  // ---------------------------------------------------------------------
  // Keyword arguments

  const SkipKey: string := "_skip_cache"

  /** The truthiness of `kwargs.pop('_skip_cache', False)`. */
  function SkipFlag<A>(kw: seq<(string, A)>, truthy: A -> bool): bool {
    if kw == [] then false
    else if kw[0].0 == SkipKey then truthy(kw[0].1)
    else SkipFlag(kw[1..], truthy)
  }

  /** The keyword arguments left once `_skip_cache` is popped. */
  function Unskipped<A>(kw: seq<(string, A)>): (r: seq<(string, A)>)
    ensures forall p | p in r :: p in kw && p.0 != SkipKey
    ensures forall p | p in kw && p.0 != SkipKey :: p in r
  {
    if kw == [] then []
    else (if kw[0].0 == SkipKey then [] else [kw[0]]) + Unskipped(kw[1..])
  }

  /** The dict the function receives as `**kwargs`. */
  function ToMap<A>(kw: seq<(string, A)>): (m: map<string, A>)
    ensures forall k | k in m :: exists p | p in kw :: p.0 == k
  {
    if kw == [] then map[] else ToMap(kw[1..])[kw[0].0 := kw[0].1]
  }

  lemma {:induction false} SkipFlagAt<A>(kw: seq<(string, A)>, truthy: A -> bool)
    requires DistinctNames(kw)
    ensures SkipFlag(kw, truthy) <==> exists p | p in kw :: p.0 == SkipKey && truthy(p.1)
  {
    if kw != [] {
      assert DistinctNames(kw[1..]) by {
        forall i, j | 0 <= i < j < |kw[1..]| ensures kw[1..][i].0 != kw[1..][j].0 {
          assert kw[1..][i] == kw[i + 1] && kw[1..][j] == kw[j + 1];
        }
      }
      SkipFlagAt(kw[1..], truthy);
      assert forall p | p in kw[1..] :: p.0 != kw[0].0;
      assert kw == [kw[0]] + kw[1..];
    }
  }

  lemma {:induction false} UnskippedDistinct<A>(kw: seq<(string, A)>)
    requires DistinctNames(kw)
    ensures DistinctNames(Unskipped(kw))
  {
    if kw != [] {
      var tail := kw[1..];
      assert DistinctNames(tail) by {
        forall i, j | 0 <= i < j < |tail| ensures tail[i].0 != tail[j].0 {
          assert tail[i] == kw[i + 1] && tail[j] == kw[j + 1];
        }
      }
      UnskippedDistinct(tail);
      assert forall p | p in tail :: p.0 != kw[0].0;
    }
  }

  lemma {:induction false} ToMapAt<A>(kw: seq<(string, A)>, p: (string, A))
    requires DistinctNames(kw) && p in kw
    ensures p.0 in ToMap(kw) && ToMap(kw)[p.0] == p.1
  {
    if p != kw[0] {
      var tail := kw[1..];
      assert DistinctNames(tail) by {
        forall i, j | 0 <= i < j < |tail| ensures tail[i].0 != tail[j].0 {
          assert tail[i] == kw[i + 1] && tail[j] == kw[j + 1];
        }
      }
      assert p in tail;
      assert p.0 != kw[0].0;
      ToMapAt(tail, p);
    }
  }

  /** The received dict does not depend on the order the keyword arguments
      were written in. */
  lemma ToMapIgnoresOrder<A>(kw1: seq<(string, A)>, kw2: seq<(string, A)>)
    requires DistinctNames(kw1) && DistinctNames(kw2) && SameItems(kw1, kw2)
    ensures ToMap(kw1) == ToMap(kw2)
  {
    forall k | k in ToMap(kw1) ensures k in ToMap(kw2) && ToMap(kw1)[k] == ToMap(kw2)[k] {
      var p :| p in kw1 && p.0 == k;
      ToMapAt(kw1, p);
      ToMapAt(kw2, p);
    }
    forall k | k in ToMap(kw2) ensures k in ToMap(kw1) {
      var p :| p in kw2 && p.0 == k;
      ToMapAt(kw1, p);
    }
  }

  // ---------------------------------------------------------------------
  // The `cached` decorator

  /** How a call becomes a cache key: the "|"-joined string the decorator
      builds, or the length-prefixed encoding that keeps distinct calls
      apart. */
  datatype KeyScheme = Joined | LengthPrefixed

  /** A function wrapped by `cached(ttl_seconds)`: its module and qualified
      name, its behaviour on the positional arguments and the keyword
      arguments in the order they were written (Ok(None) is a Python None
      result, Err an exception it raises), and `str` and truthiness of
      argument values. */
  datatype Wrapped<!A, V> = Wrapped(
    moduleName: string,
    qualname: string,
    func: (seq<A>, seq<(string, A)>) -> Result<Option<V>, Exc>,
    show: A -> string,
    truthy: A -> bool,
    ttlSeconds: int := 3600)
  {
    /** `str(arg)` for every positional argument. */
    function ArgTexts(args: seq<A>): (r: seq<string>)
      ensures |r| == |args| && forall i :: 0 <= i < |args| ==> r[i] == show(args[i])
    {
      seq(|args|, i requires 0 <= i < |args| => show(args[i]))
    }

    /** The sorted keyword items with their values as text. */
    function KwTexts(kw: seq<(string, A)>): (r: seq<(string, string)>)
      ensures var sorted := SortByName(kw);
        |r| == |kw| && forall i :: 0 <= i < |kw| ==> r[i] == (sorted[i].0, show(sorted[i].1))
    {
      var sorted := SortByName(kw);
      seq(|sorted|, i requires 0 <= i < |sorted| => (sorted[i].0, show(sorted[i].1)))
    }

    /** The key of a call whose keyword arguments, `_skip_cache` popped,
        are `rest`. */
    function Key(scheme: KeyScheme, args: seq<A>, rest: seq<(string, A)>): string {
      match scheme
      case Joined => JoinedKey(moduleName, qualname, ArgTexts(args), KwTexts(rest))
      case LengthPrefixed => CallKey(moduleName, qualname, ArgTexts(args), KwTexts(rest))
    }
  }

  /** What one call of the wrapper returns or raises, whether it ran the
      wrapped function, and the cache files afterwards. */
  datatype Outcome<V> = Outcome(result: Result<Option<V>, Exc>, invoked: bool, files: map<string, Entry<V>>)

  /** One call of the wrapper on the cache files `files`, keyed by
      `scheme`: `get` reads the clock as `now`, and on a miss `set` writes
      the entry once the function has returned, at time `written`, which
      becomes the file's modification time. An exception the function
      raises propagates before `set`, so nothing is written. */
  function Step<A, V>(w: Wrapped<A, V>, scheme: KeyScheme, files: map<string, Entry<V>>, args: seq<A>,
                      kw: seq<(string, A)>, now: int, written: int): Outcome<V>
  {
    var rest := Unskipped(kw);
    if SkipFlag(kw, w.truthy) then Outcome(w.func(args, rest), true, files)
    else
      var key := w.Key(scheme, args, rest);
      var hit := Read(files, w.ttlSeconds, key, now);
      if hit.Some? then Outcome(Ok(hit), false, files)
      else
        match w.func(args, rest)
        case Err(e) => Outcome(Err(e), true, files)
        case Ok(v) => Outcome(Ok(v), true, files[key := Entry(Pickled(v), written)])
  }

  /** The wrapper `cached` returns, called with `args` and `kwargs`; every
      call opens a fresh TTLCache on the same directory. The clock reads
      `now` when the cache is looked up and `written` when a computed
      result is stored. */
  method CallCached<A, V>(w: Wrapped<A, V>, scheme: KeyScheme, directory: Directory<V>, args: seq<A>,
                          kwargs: seq<(string, A)>, now: int, written: int)
    returns (result: Result<Option<V>, Exc>, ghost invoked: bool)
    modifies directory
    ensures Outcome(result, invoked, directory.files) == Step(w, scheme, old(directory.files), args, kwargs, now, written)
  {
    var skip := SkipFlag(kwargs, w.truthy);
    var rest := Unskipped(kwargs);
    if skip {
      result := w.func(args, rest);
      invoked := true;
      return;
    }
    var key := w.Key(scheme, args, rest);
    var cache := new TTLCache(directory, w.ttlSeconds);
    var hit := cache.Get(key, now);
    if hit.Some? {
      result, invoked := Ok(hit), false;
      return;
    }
    result := w.func(args, rest);
    invoked := true;
    if result.Err? {
      return;
    }
    cache.Set(key, result.value, written);
  }

  /** `_skip_cache` set: the function runs on the other arguments and the
      cache is neither read nor written. */
  lemma SkipBypassesCache<A, V>(w: Wrapped<A, V>, scheme: KeyScheme, files: map<string, Entry<V>>, other: map<string, Entry<V>>,
                                args: seq<A>, kw: seq<(string, A)>, now: int, written: int)
    requires SkipFlag(kw, w.truthy)
    ensures var out := Step(w, scheme, files, args, kw, now, written);
      && out.invoked && out.files == files
      && out.result == w.func(args, Unskipped(kw))
      && out.result == Step(w, scheme, other, args, kw, now, written).result
  {
  }

  /** An exception the function raises reaches the caller and nothing is
      stored; otherwise the files change at most in the call's own key. */
  lemma ErrorNeverStored<A, V>(w: Wrapped<A, V>, scheme: KeyScheme, files: map<string, Entry<V>>, args: seq<A>,
                               kw: seq<(string, A)>, now: int, written: int)
    ensures var out := Step(w, scheme, files, args, kw, now, written);
      out.result.Err? ==> out.invoked && out.files == files && out.result == w.func(args, Unskipped(kw))
    ensures var out := Step(w, scheme, files, args, kw, now, written);
      var key := w.Key(scheme, args, Unskipped(kw));
      out.result.Ok? && out.files != files ==> out.invoked && out.files == files[key := Entry(Pickled(out.result.value), written)]
  {
    var rest := Unskipped(kw);
    if !SkipFlag(kw, w.truthy) {
      var key := w.Key(scheme, args, rest);
      if Read(files, w.ttlSeconds, key, now).None? {
        match w.func(args, rest)
        case Err(e) =>
          assert Step(w, scheme, files, args, kw, now, written) == Outcome(Err(e), true, files);
        case Ok(v) =>
          assert Step(w, scheme, files, args, kw, now, written) == Outcome(Ok(v), true, files[key := Entry(Pickled(v), written)]);
      }
    }
  }

  /** A call repeated within the time to live of the moment the earlier
      call stored its result is served from the cache without running the
      function again. */
  lemma RepeatedCallServed<A, V>(w: Wrapped<A, V>, scheme: KeyScheme, files: map<string, Entry<V>>, args: seq<A>,
                                 kw: seq<(string, A)>, t1: int, w1: int, t2: int, w2: int)
    requires !SkipFlag(kw, w.truthy)
    requires var first := Step(w, scheme, files, args, kw, t1, w1);
      first.invoked && first.result.Ok? && first.result.value.Some?
    requires t2 - w1 <= w.ttlSeconds
    ensures var first := Step(w, scheme, files, args, kw, t1, w1);
      var second := Step(w, scheme, first.files, args, kw, t2, w2);
      !second.invoked && second.result == first.result && second.files == first.files
  {
  }

  /** An entry that has expired stays expired as the clock moves on. */
  lemma ReadNoneLater<V>(files: map<string, Entry<V>>, ttlSeconds: int, key: string, t1: int, t2: int)
    requires Read(files, ttlSeconds, key, t1).None? && t1 <= t2
    ensures Read(files, ttlSeconds, key, t2).None?
  {
  }

  /** Once the time to live has passed since the result was stored, the
      function runs again. When the first call raised, nothing was stored,
      and a second call that comes later runs the function again as well. */
  lemma ExpiredCallRecomputed<A, V>(w: Wrapped<A, V>, scheme: KeyScheme, files: map<string, Entry<V>>, args: seq<A>,
                                    kw: seq<(string, A)>, t1: int, w1: int, t2: int, w2: int)
    requires Step(w, scheme, files, args, kw, t1, w1).invoked
    requires Step(w, scheme, files, args, kw, t1, w1).result.Ok? || t1 <= t2
    requires t2 - w1 > w.ttlSeconds
    ensures Step(w, scheme, Step(w, scheme, files, args, kw, t1, w1).files, args, kw, t2, w2).invoked
  {
    if !SkipFlag(kw, w.truthy) && Step(w, scheme, files, args, kw, t1, w1).result.Err? {
      ReadNoneLater(files, w.ttlSeconds, w.Key(scheme, args, Unskipped(kw)), t1, t2);
    }
  }

  /** A call that raised is retried: since nothing was stored, the next
      call at a later time runs the function again. */
  lemma FailedCallRetried<A, V>(w: Wrapped<A, V>, scheme: KeyScheme, files: map<string, Entry<V>>, args: seq<A>,
                                kw: seq<(string, A)>, t1: int, w1: int, t2: int, w2: int)
    requires Step(w, scheme, files, args, kw, t1, w1).result.Err? && t1 <= t2
    ensures var first := Step(w, scheme, files, args, kw, t1, w1);
      var second := Step(w, scheme, first.files, args, kw, t2, w2);
      first.files == files && second.invoked && second.result == w.func(args, Unskipped(kw))
  {
    if !SkipFlag(kw, w.truthy) {
      ReadNoneLater(files, w.ttlSeconds, w.Key(scheme, args, Unskipped(kw)), t1, t2);
    }
  }

  /** A cached function that raises: both calls run it, both raise, and
      the cache stays empty. */
  lemma RaisingCallExample(scheme: KeyScheme)
    ensures var boom := Exc(OtherError, "source unavailable");
      var w: Wrapped<int, int> := Wrapped("tests", "fetch", (args: seq<int>, kw: seq<(string, int)>) => Err(boom),
                                          IntToString, (x: int) => x != 0, 10);
      var first := Step(w, scheme, map[], [1], [], 0, 1);
      var second := Step(w, scheme, first.files, [1], [], 2, 3);
      && first.invoked && first.result == Err(boom) && first.files == map[]
      && second.invoked && second.result == Err(boom) && second.files == map[]
  {
  }

  /** A None result is stored but never served: the next call runs the
      function again. */
  lemma NoneNeverServed<A, V>(w: Wrapped<A, V>, scheme: KeyScheme, files: map<string, Entry<V>>, args: seq<A>,
                              kw: seq<(string, A)>, t1: int, w1: int, t2: int, w2: int)
    requires Step(w, scheme, files, args, kw, t1, w1).result == Ok(None)
    ensures Step(w, scheme, Step(w, scheme, files, args, kw, t1, w1).files, args, kw, t2, w2).invoked
  {
  }

  /** Under the length-prefixed key, a call with different positional
      arguments (as text) neither sees nor disturbs the entry another call
      stored: it returns and runs as it would have without the other call,
      and the other call's entry reads the same after it. The joined key
      does not have this property (CollidingCallServed). */
  lemma OtherArgumentsUnaffected<A, V>(w: Wrapped<A, V>, files: map<string, Entry<V>>,
                                       args1: seq<A>, kw1: seq<(string, A)>, t1: int, w1: int,
                                       args2: seq<A>, kw2: seq<(string, A)>, t2: int, w2: int)
    requires w.ArgTexts(args1) != w.ArgTexts(args2)
    ensures var first := Step(w, LengthPrefixed, files, args1, kw1, t1, w1);
      var second := Step(w, LengthPrefixed, first.files, args2, kw2, t2, w2);
      && second.result == Step(w, LengthPrefixed, files, args2, kw2, t2, w2).result
      && second.invoked == Step(w, LengthPrefixed, files, args2, kw2, t2, w2).invoked
      && forall now :: Read(second.files, w.ttlSeconds, w.Key(LengthPrefixed, args1, Unskipped(kw1)), now) ==
                       Read(first.files, w.ttlSeconds, w.Key(LengthPrefixed, args1, Unskipped(kw1)), now)
  {
    var first := Step(w, LengthPrefixed, files, args1, kw1, t1, w1);
    var key1 := w.Key(LengthPrefixed, args1, Unskipped(kw1));
    var key2 := w.Key(LengthPrefixed, args2, Unskipped(kw2));
    KeysDiffer(w, args1, Unskipped(kw1), args2, Unskipped(kw2));
    ErrorNeverStored(w, LengthPrefixed, files, args1, kw1, t1, w1);
    if first.files != files {
      ReadOtherKey(files, w.ttlSeconds, key1, first.files[key1], key2, t2);
    }
    var second := Step(w, LengthPrefixed, first.files, args2, kw2, t2, w2);
    ErrorNeverStored(w, LengthPrefixed, first.files, args2, kw2, t2, w2);
    if second.files != first.files {
      forall now ensures Read(second.files, w.ttlSeconds, key1, now) == Read(first.files, w.ttlSeconds, key1, now) {
        ReadOtherKey(first.files, w.ttlSeconds, key2, second.files[key2], key1, now);
      }
    }
  }

  lemma KeysDiffer<A, V>(w: Wrapped<A, V>, args1: seq<A>, rest1: seq<(string, A)>,
                         args2: seq<A>, rest2: seq<(string, A)>)
    requires w.ArgTexts(args1) != w.ArgTexts(args2)
    ensures w.Key(LengthPrefixed, args1, rest1) != w.Key(LengthPrefixed, args2, rest2)
  {
    if w.Key(LengthPrefixed, args1, rest1) == w.Key(LengthPrefixed, args2, rest2) {
      CallKeyInjective(w.moduleName, w.qualname, w.ArgTexts(args1), w.KwTexts(rest1),
                       w.moduleName, w.qualname, w.ArgTexts(args2), w.KwTexts(rest2));
    }
  }

  /** The order the keyword arguments were written in changes neither the
      skip flag nor the key. */
  lemma KeyIgnoresKeywordOrder<A, V>(w: Wrapped<A, V>, scheme: KeyScheme, args: seq<A>,
                                     kw1: seq<(string, A)>, kw2: seq<(string, A)>)
    requires DistinctNames(kw1) && DistinctNames(kw2) && multiset(kw1) == multiset(kw2)
    ensures SkipFlag(kw1, w.truthy) == SkipFlag(kw2, w.truthy)
    ensures w.Key(scheme, args, Unskipped(kw1)) == w.Key(scheme, args, Unskipped(kw2))
  {
    PermutationSameItems(kw1, kw2);
    SkipFlagIgnoresOrder(kw1, kw2, w.truthy);
    RestIgnoresOrder(kw1, kw2);
  }

  /** A call whose keyword arguments are an earlier call's written in
      another order is served the earlier call's result within the time to
      live, whatever the function would return for the new order. */
  lemma ReorderedCallServed<A, V>(w: Wrapped<A, V>, scheme: KeyScheme, files: map<string, Entry<V>>, args: seq<A>,
                                  kw1: seq<(string, A)>, kw2: seq<(string, A)>, t1: int, w1: int, t2: int, w2: int)
    requires DistinctNames(kw1) && DistinctNames(kw2) && multiset(kw1) == multiset(kw2)
    requires !SkipFlag(kw1, w.truthy)
    requires var first := Step(w, scheme, files, args, kw1, t1, w1);
      first.invoked && first.result.Ok? && first.result.value.Some?
    requires t2 - w1 <= w.ttlSeconds
    ensures var first := Step(w, scheme, files, args, kw1, t1, w1);
      var second := Step(w, scheme, first.files, args, kw2, t2, w2);
      !second.invoked && second.result == first.result && second.files == first.files
  {
    KeyIgnoresKeywordOrder(w, scheme, args, kw1, kw2);
    var key := w.Key(scheme, args, Unskipped(kw1));
    var first := Step(w, scheme, files, args, kw1, t1, w1);
    var v := first.result.value;
    assert first.files == files[key := Entry(Pickled(v), w1)];
    ReadAfterWrite(files, w.ttlSeconds, key, v, w1, t2);
    assert Read(first.files, w.ttlSeconds, w.Key(scheme, args, Unskipped(kw2)), t2) == v;
  }

  /** For a function that reads its keyword arguments only by name, the
      order they were written in changes nothing at all: neither the key,
      nor the skip flag, nor what the function returns. */
  lemma StepIgnoresKeywordOrder<A, V>(w: Wrapped<A, V>, scheme: KeyScheme, files: map<string, Entry<V>>, args: seq<A>,
                                      kw1: seq<(string, A)>, kw2: seq<(string, A)>, now: int, written: int)
    requires forall kwa: seq<(string, A)>, kwb: seq<(string, A)> ::
      ToMap(kwa) == ToMap(kwb) ==> w.func(args, kwa) == w.func(args, kwb)
    requires DistinctNames(kw1) && DistinctNames(kw2) && multiset(kw1) == multiset(kw2)
    ensures Step(w, scheme, files, args, kw1, now, written) == Step(w, scheme, files, args, kw2, now, written)
  {
    var rest1, rest2 := Unskipped(kw1), Unskipped(kw2);
    KeyIgnoresKeywordOrder(w, scheme, args, kw1, kw2);
    PermutationSameItems(kw1, kw2);
    RestIgnoresOrder(kw1, kw2);
    assert w.func(args, rest1) == w.func(args, rest2);
  }

  /** The names of the keyword arguments, in the order written:
      `list(kwargs)`. */
  function Names<A>(kw: seq<(string, A)>): (r: seq<string>)
    ensures |r| == |kw| && forall i :: 0 <= i < |kw| ==> r[i] == kw[i].0
  {
    if kw == [] then [] else [kw[0].0] + Names(kw[1..])
  }

  /** `def f(**kw): return list(kw)`, cached: `f(a=1, b=2)` stores
      ["a", "b"], and `f(b=2, a=1)` is then served ["a", "b"], although
      the function itself returns ["b", "a"] for it. */
  lemma KeywordOrderExample(scheme: KeyScheme)
    ensures var w := Wrapped("tests", "f", (args: seq<int>, kw: seq<(string, int)>) => Ok(Some(Names(kw))),
                             IntToString, (x: int) => x != 0, 10);
      var first := Step(w, scheme, map[], [], [("a", 1), ("b", 2)], 0, 1);
      var second := Step(w, scheme, first.files, [], [("b", 2), ("a", 1)], 5, 5);
      && first.invoked && first.result == Ok(Some(["a", "b"]))
      && !second.invoked && second.result == Ok(Some(["a", "b"]))
      && w.func([], [("b", 2), ("a", 1)]) == Ok(Some(["b", "a"]))
  {
    var w := Wrapped("tests", "f", (args: seq<int>, kw: seq<(string, int)>) => Ok(Some(Names(kw))),
                     IntToString, (x: int) => x != 0, 10);
    var kw1, kw2 := [("a", 1), ("b", 2)], [("b", 2), ("a", 1)];
    KeywordPairFacts(kw1, kw2, w.truthy);
    assert Names(kw1) == ["a", "b"] && Names(kw2) == ["b", "a"];
    var first := Step(w, scheme, map[], [], kw1, 0, 1);
    assert first.invoked && first.result == Ok(Some(["a", "b"]));
    ReorderedCallServed(w, scheme, map[], [], kw1, kw2, 0, 1, 5, 5);
  }

  lemma KeywordPairFacts(kw1: seq<(string, int)>, kw2: seq<(string, int)>, truthy: int -> bool)
    requires kw1 == [("a", 1), ("b", 2)] && kw2 == [("b", 2), ("a", 1)]
    ensures DistinctNames(kw1) && DistinctNames(kw2) && multiset(kw1) == multiset(kw2)
    ensures !SkipFlag(kw1, truthy) && Unskipped(kw1) == kw1
  {
    assert kw2 == [kw1[1], kw1[0]];
    assert |SkipKey| == 11;
    var tail := kw1[1..];
    assert tail == [("b", 2)] && tail[1..] == [];
    assert !SkipFlag(tail, truthy) && Unskipped(tail) == tail;
  }

  lemma PermutationSameItems<A>(kw1: seq<(string, A)>, kw2: seq<(string, A)>)
    requires multiset(kw1) == multiset(kw2)
    ensures SameItems(kw1, kw2)
  {
    forall p | p in kw1 ensures p in kw2 { assert p in multiset(kw1); }
    forall p | p in kw2 ensures p in kw1 { assert p in multiset(kw2); }
  }

  /** Once `_skip_cache` is popped, the dict passed on and the sorted items
      do not depend on the order of the keyword arguments. */
  lemma RestIgnoresOrder<A>(kw1: seq<(string, A)>, kw2: seq<(string, A)>)
    requires DistinctNames(kw1) && DistinctNames(kw2) && SameItems(kw1, kw2)
    ensures ToMap(Unskipped(kw1)) == ToMap(Unskipped(kw2))
    ensures SortByName(Unskipped(kw1)) == SortByName(Unskipped(kw2))
  {
    var rest1, rest2 := Unskipped(kw1), Unskipped(kw2);
    UnskippedDistinct(kw1);
    UnskippedDistinct(kw2);
    assert SameItems(rest1, rest2);
    ToMapIgnoresOrder(rest1, rest2);
    SortByNameIgnoresOrder(rest1, rest2);
  }

  lemma SkipFlagIgnoresOrder<A>(kw1: seq<(string, A)>, kw2: seq<(string, A)>, truthy: A -> bool)
    requires DistinctNames(kw1) && DistinctNames(kw2) && SameItems(kw1, kw2)
    ensures SkipFlag(kw1, truthy) == SkipFlag(kw2, truthy)
  {
    SkipFlagAt(kw1, truthy);
    SkipFlagAt(kw2, truthy);
  }

  /** A doubling function cached for ten seconds whose first call takes
      three seconds: the second call with 2, twelve seconds after the first
      began but nine after its result was stored, is served from the cache;
      the call with 3 runs the function. The same under either key. */
  lemma DoublingExample(scheme: KeyScheme)
    ensures var w := Wrapped("tests", "expensive_func",
                             (args: seq<int>, kw: seq<(string, int)>) => if |args| > 0 then Ok(Some(2 * args[0])) else Ok(None),
                             IntToString, (x: int) => x != 0, 10);
      var first := Step(w, scheme, map[], [2], [], 0, 3);
      var second := Step(w, scheme, first.files, [2], [], 12, 12);
      var third := Step(w, scheme, second.files, [3], [], 13, 14);
      && first.invoked && first.result == Ok(Some(4))
      && !second.invoked && second.result == Ok(Some(4))
      && third.invoked && third.result == Ok(Some(6))
  {
    var w := Wrapped("tests", "expensive_func",
                     (args: seq<int>, kw: seq<(string, int)>) => if |args| > 0 then Ok(Some(2 * args[0])) else Ok(None),
                     IntToString, (x: int) => x != 0, 10);
    RepeatedCallServed(w, scheme, map[], [2], [], 0, 3, 12, 12);
    assert w.ArgTexts([2]) == ["2"] && w.ArgTexts([3]) == ["3"];
    match scheme
    case LengthPrefixed =>
      OtherArgumentsUnaffected(w, map[], [2], [], 0, 3, [3], [], 13, 14);
    case Joined =>
      assert w.KwTexts([]) == [];
      JoinedKeyOneArg("tests", "expensive_func", "2");
      JoinedKeyOneArg("tests", "expensive_func", "3");
      var k2, k3 := w.Key(Joined, [2], []), w.Key(Joined, [3], []);
      assert k2[21] != k3[21];
  }

  /** The collision of the joined key at work: `f("a|b")` stores its result
      under the key of `f("a", "b")`, and that call is then served the
      stored result without running `f`. Under the length-prefixed key the
      second call runs `f` on its own arguments. */
  lemma CollidingCallServed<V>(w: Wrapped<string, V>, t1: int, w1: int, t2: int, w2: int)
    requires w.show("a|b") == "a|b" && w.show("a") == "a" && w.show("b") == "b"
    requires w.func(["a|b"], []).Ok? && w.func(["a|b"], []).value.Some?
    requires t2 - w1 <= w.ttlSeconds
    ensures var first := Step(w, Joined, map[], ["a|b"], [], t1, w1);
      var second := Step(w, Joined, first.files, ["a", "b"], [], t2, w2);
      && first.invoked && !second.invoked && second.result == w.func(["a|b"], [])
    ensures var first := Step(w, LengthPrefixed, map[], ["a|b"], [], t1, w1);
      var second := Step(w, LengthPrefixed, first.files, ["a", "b"], [], t2, w2);
      && second.invoked && second.result == w.func(["a", "b"], [])
  {
    assert w.ArgTexts(["a|b"]) == ["a|b"] && w.ArgTexts(["a", "b"]) == ["a", "b"];
    assert w.KwTexts([]) == [];
    JoinedKeyCollides(w.moduleName, w.qualname);
    KeysDiffer(w, ["a|b"], [], ["a", "b"], []);
    assert Unskipped<string>([]) == [];
  }
}
