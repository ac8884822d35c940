/**
 * `kaitenUtils.calculatePayloadHash` and `kaitenUtils.needsUpdate`: the
 * payload is written out by `JSON.stringify` with the sorted list of its
 * top-level keys as the property list, encoded as UTF-8, digested, and
 * the digest written as two lower-case hexadecimal digits per byte.
 * The digest (SHA-256) is a parameter.
 */
module PayloadHash {
  import opened Wrappers
  import opened Strings
  import opened JsValue
  import Seqs

  newtype byte = x: int | 0 <= x < 256

  // ---------------------------------------------------------------------
  // Sorting the key list: `Object.keys(payload).sort()`

  ghost predicate StrictlySorted(s: seq<string>) {
    forall i, j :: 0 <= i < j < |s| ==> Less(s[i], s[j])
  }

  ghost predicate Sorted(s: seq<string>) {
    forall i, j :: 0 <= i < j < |s| ==> !Less(s[j], s[i])
  }

  ghost predicate SameElements(a: seq<string>, b: seq<string>) {
    forall x :: x in a <==> x in b
  }

  function Insert(x: string, s: seq<string>): (r: seq<string>)
    requires Sorted(s)
    ensures Sorted(r)
    ensures multiset(r) == multiset(s) + multiset{x}
  {
    if s == [] then [x]
    else if !Less(s[0], x) then
      assert forall j :: 0 < j < |s| ==> !Less(s[j], x) by {
        forall j | 0 < j < |s| ensures !Less(s[j], x) {
          assert !Less(s[j], s[0]);
          if s[j] != s[0] {
            LessTotal(s[0], s[j]);
            if Less(s[j], x) {
              LessTransitive(s[0], s[j], x);
            }
          }
        }
      }
      [x] + s
    else
      var rest := Insert(x, s[1..]);
      assert forall j :: 0 <= j < |rest| ==> !Less(rest[j], s[0]) by {
        forall j | 0 <= j < |rest| ensures !Less(rest[j], s[0]) {
          assert rest[j] in multiset(rest);
          if rest[j] == x {
            LessAsymmetric(s[0], x);
          } else {
            assert rest[j] in multiset(s[1..]);
          }
        }
      }
      assert s == [s[0]] + s[1..];
      [s[0]] + rest
  }

  /** `Array.prototype.sort` with the default comparison. */
  function SortStrings(s: seq<string>): (r: seq<string>)
    ensures Sorted(r)
    ensures multiset(r) == multiset(s)
  {
    if s == [] then [] else
      assert s == [s[0]] + s[1..];
      var rest := SortStrings(s[1..]);
      Insert(s[0], rest)
  }

  /** Sorted and free of repetitions is strictly sorted. */
  lemma SortedNoDupStrict(s: seq<string>)
    requires Sorted(s) && Seqs.NoDup(s)
    ensures StrictlySorted(s)
  {
    forall i, j | 0 <= i < j < |s| ensures Less(s[i], s[j]) {
      LessTotal(s[i], s[j]);
    }
  }

  /** The first element of a strictly sorted list is below all the others. */
  lemma StrictlySortedHead(s: seq<string>)
    requires StrictlySorted(s) && s != []
    ensures forall x :: x in s ==> x == s[0] || Less(s[0], x)
    ensures forall x :: x in s[1..] <==> x in s && x != s[0]
  {
    LessIrreflexive(s[0]);
    forall x | x in s[1..] ensures x in s && x != s[0] {
      var k :| 0 <= k < |s[1..]| && s[1..][k] == x;
      assert Less(s[0], s[k + 1]);
    }
    forall x | x in s && x != s[0] ensures x in s[1..] {
      var k :| 0 <= k < |s| && s[k] == x;
      assert s[1..][k - 1] == x;
    }
  }

  /** Two strictly sorted lists with the same elements are the same list. */
  lemma {:induction false} StrictlySortedUnique(a: seq<string>, b: seq<string>)
    requires StrictlySorted(a) && StrictlySorted(b)
    requires SameElements(a, b)
    ensures a == b
  {
    assert a != [] ==> a[0] in b;
    assert |a| == 0 <==> |b| == 0 by {
      assert b != [] ==> b[0] in a;
    }
    if a != [] {
      StrictlySortedHead(a);
      StrictlySortedHead(b);
      LessAsymmetric(a[0], b[0]);
      assert a[0] == b[0];
      StrictlySortedUnique(a[1..], b[1..]);
      assert a == [a[0]] + a[1..] && b == [b[0]] + b[1..];
    }
  }

  // ---------------------------------------------------------------------
  // `JSON.stringify(value, propertyList)`

  /** The sorted top-level keys; `Object.keys` throws on `null` and `undefined`. */
  function TopKeys(payload: Js): (r: Result<seq<string>>)
    ensures r.Err? <==> IsNullish(payload)
  {
    var keys :- Keys(payload);
    Ok(SortStrings(keys))
  }

  /** The lower-case hexadecimal digit for `d`. */
  function HexDigit(d: nat): char
    requires d < 16
  {
    if d < 10 then ('0' as int + d) as char else ('a' as int + d - 10) as char
  }

  /** One character inside a JSON string literal. */
  function QuoteChar(c: char): string {
    if c == '"' then "\\\""
    else if c == '\\' then "\\\\"
    else if c == '\U{0008}' then "\\b"
    else if c == '\t' then "\\t"
    else if c == '\n' then "\\n"
    else if c == '\U{000C}' then "\\f"
    else if c == '\r' then "\\r"
    else if (c as int) < 0x20 then "\\u00" + [HexDigit(c as int / 16), HexDigit(c as int % 16)]
    else [c]
  }

  function QuoteBody(s: string): string {
    if s == [] then "" else QuoteChar(s[0]) + QuoteBody(s[1..])
  }

  /** A JSON string literal. */
  function Quote(s: string): string { "\"" + QuoteBody(s) + "\"" }

  /**
   * The text `JSON.stringify` writes for `v` when every object, at any
   * depth, is written with the properties named in `keys` in that order;
   * `None` for `undefined`, which is left out of objects.
   */
  function Serialize(v: Js, keys: seq<string>): Option<string>
    decreases v, 1
  {
    match v
    case Undefined => None
    case Null => Some("null")
    case Bool(b) => Some(if b then "true" else "false")
    case Num(n) => Some(IntToString(n))
    case Str(s) => Some(Quote(s))
    case Arr(items) => Some("[" + Join(",", Elements(v, 0, keys)) + "]")
    case Obj(fields) => Some("{" + Join(",", Members(v, keys, keys)) + "}")
  }

  /** The array elements from position `from` on; `undefined` is written `null`. */
  function Elements(v: Js, from: nat, keys: seq<string>): seq<string>
    requires v.Arr? && from <= |v.items|
    decreases v, 0, |v.items| - from
  {
    if from == |v.items| then []
    else
      var x := v.items[from];
      var text := Serialize(x, keys);
      [if text.Some? then text.value else "null"] + Elements(v, from + 1, keys)
  }

  /** `"k":value` for every name `k` of `ks` whose value is not `undefined`. */
  function Members(v: Js, ks: seq<string>, keys: seq<string>): seq<string>
    requires v.Obj?
    decreases v, 0, |ks|
  {
    if ks == [] then []
    else
      var x := Lookup(v.fields, ks[0]);
      LookupSmaller(v, ks[0]);
      var text := if x == Undefined then None else Serialize(x, keys);
      (if text.Some? then [Quote(ks[0]) + ":" + text.value] else []) + Members(v, ks[1..], keys)
  }

  lemma LookupSmaller(v: Js, k: string)
    requires v.Obj?
    ensures Lookup(v.fields, k) == Undefined || Lookup(v.fields, k) < v
  {
    var x := Lookup(v.fields, k);
    if x != Undefined {
      var i :| 0 <= i < |v.fields| && v.fields[i] == (k, x);
      assert v.fields[i] in v.fields;
    }
  }

  /** The members written depend only on the values the listed names look up. */
  lemma {:induction false} MembersAgree(v: Js, w: Js, ks: seq<string>, keys: seq<string>)
    requires v.Obj? && w.Obj?
    requires forall k :: k in ks ==> Lookup(v.fields, k) == Lookup(w.fields, k)
    ensures Members(v, ks, keys) == Members(w, ks, keys)
  {
    if ks != [] {
      MembersAgree(v, w, ks[1..], keys);
    }
  }

  /** A nested property whose name is not in the key list is dropped from the output. */
  lemma UnlistedPropertyDropped(fields: seq<(string, Js)>, k: string, x: Js, keys: seq<string>)
    requires k !in keys
    ensures Serialize(Obj(fields + [(k, x)]), keys) == Serialize(Obj(fields), keys)
  {
    forall k' | k' in keys
      ensures Lookup((fields + [(k, x)]), k') == Lookup(fields, k')
    {
      LookupAppend(fields, k, x, k');
    }
    MembersAgree(Obj(fields + [(k, x)]), Obj(fields), keys, keys);
  }

  // ---------------------------------------------------------------------
  // `new TextEncoder().encode(text)`

  function Utf8Char(c: char): (r: seq<byte>)
    ensures 1 <= |r| <= 4
  {
    var cp := c as int;
    if cp < 0x80 then [cp as byte]
    else if cp < 0x800 then [(0xC0 + cp / 64) as byte, (0x80 + cp % 64) as byte]
    else if cp < 0x10000 then
      [(0xE0 + cp / 4096) as byte, (0x80 + (cp / 64) % 64) as byte, (0x80 + cp % 64) as byte]
    else
      [(0xF0 + cp / 262144) as byte, (0x80 + (cp / 4096) % 64) as byte,
       (0x80 + (cp / 64) % 64) as byte, (0x80 + cp % 64) as byte]
  }

  function Utf8(s: string): seq<byte> {
    if s == [] then [] else Utf8Char(s[0]) + Utf8(s[1..])
  }

  /** An ASCII string encodes to its own character codes. */
  lemma {:induction false} Utf8Ascii(s: string)
    requires forall i :: 0 <= i < |s| ==> (s[i] as int) < 0x80
    ensures |Utf8(s)| == |s|
    ensures forall i :: 0 <= i < |s| ==> Utf8(s)[i] as int == s[i] as int
  {
    if s != [] {
      Utf8Ascii(s[1..]);
    }
  }

  // ---------------------------------------------------------------------
  // `hashArray.map((b) => b.toString(16).padStart(2, "0")).join("")`

  /** `b.toString(16)` */
  function ByteToHex(b: byte): string {
    if b < 16 then [HexDigit(b as nat)] else [HexDigit(b as nat / 16), HexDigit(b as nat % 16)]
  }

  /** `b.toString(16).padStart(2, "0")`: always two digits, the high one first. */
  function ByteHex(b: byte): (r: string)
    ensures r == [HexDigit(b as nat / 16), HexDigit(b as nat % 16)]
  {
    PadStart2(ByteToHex(b))
  }

  predicate IsLowerHex(c: char) { ('0' <= c <= '9') || ('a' <= c <= 'f') }

  function HexValue(c: char): nat
    requires IsLowerHex(c)
  {
    if c <= '9' then c as nat - '0' as nat else c as nat - 'a' as nat + 10
  }

  lemma HexDigitValue(d: nat)
    requires d < 16
    ensures IsLowerHex(HexDigit(d)) && HexValue(HexDigit(d)) == d
  {
  }

  function HexOfBytes(bs: seq<byte>): (r: string)
    ensures |r| == 2 * |bs|
    ensures forall i :: 0 <= i < |r| ==> IsLowerHex(r[i])
  {
    if bs == [] then ""
    else
      HexDigitValue(bs[0] as nat / 16);
      HexDigitValue(bs[0] as nat % 16);
      ByteHex(bs[0]) + HexOfBytes(bs[1..])
  }

  /** The hexadecimal text read back, two digits per byte. */
  function HexDecode(s: string): seq<byte>
    requires |s| % 2 == 0 && forall i :: 0 <= i < |s| ==> IsLowerHex(s[i])
  {
    if s == [] then [] else [(HexValue(s[0]) * 16 + HexValue(s[1])) as byte] + HexDecode(s[2..])
  }

  /** The hexadecimal text determines the digest: decoding gives the bytes back. */
  lemma {:induction false} HexRoundTrip(bs: seq<byte>)
    ensures HexDecode(HexOfBytes(bs)) == bs
  {
    if bs != [] {
      HexRoundTrip(bs[1..]);
      var h := HexOfBytes(bs);
      assert h[2..] == HexOfBytes(bs[1..]);
      var hi := bs[0] as nat / 16;
      var lo := bs[0] as nat % 16;
      HexDigitValue(hi);
      HexDigitValue(lo);
      assert h[0] == HexDigit(hi) && h[1] == HexDigit(lo);
    }
  }

  // ---------------------------------------------------------------------
  // The hash itself

  /** The text that is hashed. */
  function CanonicalText(payload: Js): (r: Result<string>)
    ensures r.Err? <==> IsNullish(payload)
  {
    var keys :- TopKeys(payload);
    var text := Serialize(payload, keys);
    Ok(if text.Some? then text.value else "")
  }

  /** `calculatePayloadHash(payload)` for the given digest function. */
  function CalculatePayloadHash(payload: Js, digest: seq<byte> -> seq<byte>): (r: Result<string>)
    ensures r.Err? <==> IsNullish(payload)
    ensures r.Ok? ==> |r.value| == 2 * |digest(Utf8(CanonicalText(payload).value))|
    ensures r.Ok? ==> forall i :: 0 <= i < |r.value| ==> IsLowerHex(r.value[i])
    ensures r.Ok? ==> HexDecode(r.value) == digest(Utf8(CanonicalText(payload).value))
  {
    var text :- CanonicalText(payload);
    HexRoundTrip(digest(Utf8(text)));
    Ok(HexOfBytes(digest(Utf8(text))))
  }

  /** `needsUpdate(existingHash, newHash)`: `None` stands for a `null` stored hash. */
  function NeedsUpdate(existing: Option<string>, newHash: string): bool {
    existing != Some(newHash)
  }

  lemma {:induction false} LookupNoDup(fields: seq<(string, Js)>, i: nat)
    requires i < |fields| && Seqs.NoDup(Names(fields))
    ensures Lookup(fields, fields[i].0) == fields[i].1
  {
    if i != |fields| - 1 {
      assert Names(fields)[i] != Names(fields)[|fields| - 1];
      var init := fields[..|fields| - 1];
      assert Seqs.NoDup(Names(init)) by {
        forall a, b | 0 <= a < b < |Names(init)| ensures Names(init)[a] != Names(init)[b] {
          assert Names(init)[a] == Names(fields)[a] && Names(init)[b] == Names(fields)[b];
        }
      }
      LookupNoDup(init, i);
    }
  }

  /** The sorted key list of an object depends only on which names it has. */
  lemma TopKeysOfSameNames(f: seq<(string, Js)>, g: seq<(string, Js)>)
    requires SameElements(Names(f), Names(g))
    ensures TopKeys(Obj(f)) == TopKeys(Obj(g))
  {
    var df := Seqs.Distinct(Names(f));
    var dg := Seqs.Distinct(Names(g));
    Seqs.DistinctProperties(Names(f));
    Seqs.DistinctProperties(Names(g));
    var kf := SortStrings(df);
    var kg := SortStrings(dg);
    Seqs.NoDupPermutation(df, kf);
    Seqs.NoDupPermutation(dg, kg);
    SortedNoDupStrict(kf);
    SortedNoDupStrict(kg);
    forall x ensures x in kf <==> x in kg {
      assert x in kf <==> x in multiset(df);
      assert x in kg <==> x in multiset(dg);
    }
    StrictlySortedUnique(kf, kg);
  }

  /**
   * Two objects with the same property names and the same values for
   * each write the same canonical text and hash alike, whatever the
   * order of their properties.
   */
  lemma HashIgnoresPropertyOrder(f: seq<(string, Js)>, g: seq<(string, Js)>, digest: seq<byte> -> seq<byte>)
    requires SameElements(Names(f), Names(g))
    requires forall k :: Lookup(f, k) == Lookup(g, k)
    ensures CanonicalText(Obj(f)) == CanonicalText(Obj(g))
    ensures CalculatePayloadHash(Obj(f), digest) == CalculatePayloadHash(Obj(g), digest)
  {
    TopKeysOfSameNames(f, g);
    var keys := TopKeys(Obj(f)).value;
    MembersAgree(Obj(f), Obj(g), keys, keys);
  }

  /**
   * Reordering the properties of a parsed object (whose names are
   * distinct) leaves the hash unchanged, so `needsUpdate` is false.
   */
  lemma ReorderedPayloadNeedsNoUpdate(f: seq<(string, Js)>, g: seq<(string, Js)>, digest: seq<byte> -> seq<byte>)
    requires multiset(f) == multiset(g) && Seqs.NoDup(Names(f))
    ensures CalculatePayloadHash(Obj(f), digest) == CalculatePayloadHash(Obj(g), digest)
    ensures !NeedsUpdate(Some(CalculatePayloadHash(Obj(f), digest).value), CalculatePayloadHash(Obj(g), digest).value)
  {
    assert forall p :: p in f <==> p in g by {
      forall p ensures p in f <==> p in g {
        assert p in f <==> p in multiset(f);
        assert p in g <==> p in multiset(g);
      }
    }
    forall x ensures x in Names(f) <==> x in Names(g) {
      if x in Names(f) {
        var i :| 0 <= i < |f| && Names(f)[i] == x;
        assert f[i] in g;
        var j :| 0 <= j < |g| && g[j] == f[i];
        assert Names(g)[j] == x;
      }
      if x in Names(g) {
        var j :| 0 <= j < |g| && Names(g)[j] == x;
        assert g[j] in f;
        var i :| 0 <= i < |f| && f[i] == g[j];
        assert Names(f)[i] == x;
      }
    }
    forall k ensures Lookup(f, k) == Lookup(g, k) {
      if j :| 0 <= j < |g| && g[j].0 == k {
        var j' :| 0 <= j' < |g| && g[j'] == (k, Lookup(g, k));
        assert g[j'] in f;
        var a :| 0 <= a < |f| && f[a] == g[j'];
        LookupNoDup(f, a);
      } else {
        assert forall i :: 0 <= i < |f| ==> f[i].0 != k by {
          forall i | 0 <= i < |f| ensures f[i].0 != k {
            assert f[i] in g;
          }
        }
      }
    }
    HashIgnoresPropertyOrder(f, g, digest);
  }
}
