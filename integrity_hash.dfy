/**
 * The report integrity hash: `generateIntegrityHash(data)` serialises `data`
 * with `JSON.stringify(data, Object.keys(data).sort())`, encodes the result as
 * UTF-8, digests it with SHA-256 and renders the digest as lowercase hex;
 * `verifyIntegrityHash(data, storedHash)` recomputes it and compares strings.
 *
 * `JSON.stringify` with an array replacer follows section 25.5.2 of ECMA-262:
 * the replacer, without duplicates, becomes the property list, and that list
 * (not each object's own keys) is used for EVERY object being serialised.
 * A nested object therefore contributes only the members whose names are also
 * top-level keys, in sorted top-level order.
 */
module IntegrityHash {
  import opened Wrappers
  import JsString
  import StringOrder
  import AppTypes
  import JsCollections

  type byte = x: int | 0 <= x < 256

  /** A SHA-256 digest is 32 bytes (FIPS 180-4). */
  type Digest = d: seq<byte> | |d| == 32 witness seq(32, _ => 0)

  /** JSON values; an object lists its members in insertion order. */
  datatype Json =
    | JNull
    | JBool(b: bool)
    | JNumber(n: real)
    | JString(s: string)
    | JArray(items: seq<Json>)
    | JObject(members: seq<(string, Json)>)

  /**
   * What the model does not interpret: QuoteJSONString (escaping), Number::toString
   * for finite numbers, and the SHA-256 compression function.
   */
  datatype Primitives = Primitives(
    quote: string -> string,
    numberText: real -> string,
    sha256: seq<byte> -> Digest)

  /** Position of the member called `k` (an object's own property `k`), if there is one. */
  function IndexOfKey(ms: seq<(string, Json)>, k: string): (r: Option<nat>)
    ensures r.Some? ==> r.value < |ms| && ms[r.value].0 == k
    ensures r.Some? ==> forall j :: 0 <= j < r.value ==> ms[j].0 != k
    ensures r.None? <==> forall j :: 0 <= j < |ms| ==> ms[j].0 != k
  {
    if ms == [] then None
    else if ms[0].0 == k then Some(0)
    else match IndexOfKey(ms[1..], k)
      case None => None
      case Some(i) => Some(i + 1)
  }

  /** `Get(object, k)`; `None` stands for `undefined`. */
  function Lookup(ms: seq<(string, Json)>, k: string): Option<Json> {
    match IndexOfKey(ms, k)
    case None => None
    case Some(i) => Some(ms[i].1)
  }

  /** No two members share a name: every JavaScript object has this shape. */
  predicate DistinctKeys(ms: seq<(string, Json)>) {
    forall i, j :: 0 <= i < j < |ms| ==> ms[i].0 != ms[j].0
  }

  /** Step 4 of JSON.stringify: the replacer array, each name kept at its first occurrence. */
  function PropertyList(replacer: seq<string>): seq<string> {
    JsCollections.Dedup(replacer)
  }

  /** The names of the property list that the object actually has, in property-list order. */
  function EmittedKeys(ms: seq<(string, Json)>, plist: seq<string>): (r: seq<string>)
    ensures forall j :: 0 <= j < |r| ==> IndexOfKey(ms, r[j]).Some?
    ensures forall k :: k in r <==> k in plist && IndexOfKey(ms, k).Some?
  {
    if plist == [] then []
    else (if IndexOfKey(ms, plist[0]).Some? then [plist[0]] else []) + EmittedKeys(ms, plist[1..])
  }

  /** Members joined by ",", as SerializeJSONObject and SerializeJSONArray do without a gap. */
  function Join(parts: seq<string>): string {
    if parts == [] then ""
    else if |parts| == 1 then parts[0]
    else parts[0] + "," + Join(parts[1..])
  }

  /** SerializeJSONProperty under a property list (no `toJSON`, no undefined values). */
  function Stringify(v: Json, plist: seq<string>, p: Primitives): (r: string)
    ensures v.JArray? ==> |r| >= 2 && r[0] == '[' && r[|r| - 1] == ']'
    ensures v.JObject? ==> |r| >= 2 && r[0] == '{' && r[|r| - 1] == '}'
    decreases v, 1, 0
  {
    match v
    case JNull => "null"
    case JBool(b) => if b then "true" else "false"
    case JNumber(n) => p.numberText(n)
    case JString(s) => p.quote(s)
    case JArray(items) =>
      "[" + Join(seq(|items|, i requires 0 <= i < |items| => Stringify(items[i], plist, p))) + "]"
    case JObject(ms) => "{" + Join(ObjectParts(ms, plist, plist, p)) + "}"
  }

  /** The loop of SerializeJSONObject over K: a member `"P":value` for each P of K the object has. */
  function ObjectParts(ms: seq<(string, Json)>, keys: seq<string>, plist: seq<string>, p: Primitives): seq<string>
    decreases JObject(ms), 0, |keys|
  {
    if keys == [] then []
    else
      var rest := ObjectParts(ms, keys[1..], plist, p);
      match IndexOfKey(ms, keys[0])
      case None => rest
      case Some(i) => [p.quote(keys[0]) + ":" + Stringify(ms[i].1, plist, p)] + rest
  }

  /**
   * The tree that JSON.stringify actually writes out under a property list:
   * every object reduced to the property-list names it has, in list order.
   */
  function Canonicalize(v: Json, plist: seq<string>): (r: Json)
    ensures v.JArray? <==> r.JArray?
    ensures v.JObject? <==> r.JObject?
    ensures v.JArray? ==> |r.items| == |v.items|
    ensures !v.JArray? && !v.JObject? ==> r == v
    decreases v
  {
    match v
    case JArray(items) =>
      JArray(seq(|items|, i requires 0 <= i < |items| => Canonicalize(items[i], plist)))
    case JObject(ms) =>
      var keys := EmittedKeys(ms, plist);
      JObject(seq(|keys|, j requires 0 <= j < |keys| =>
        (keys[j], Canonicalize(ms[IndexOfKey(ms, keys[j]).value].1, plist))))
    case _ => v
  }

  /** Writes a tree out member by member, in the order the tree lists them. */
  function Render(v: Json, p: Primitives): string
  {
    match v
    case JNull => "null"
    case JBool(b) => if b then "true" else "false"
    case JNumber(n) => p.numberText(n)
    case JString(s) => p.quote(s)
    case JArray(items) =>
      "[" + Join(seq(|items|, i requires 0 <= i < |items| => Render(items[i], p))) + "]"
    case JObject(ms) =>
      "{" + Join(seq(|ms|, i requires 0 <= i < |ms| => p.quote(ms[i].0) + ":" + Render(ms[i].1, p))) + "}"
  }

  /**
   * Every object in the tree lists exactly the property-list names it has, in
   * property-list order (and so nothing outside the list).
   */
  predicate AllowListed(v: Json, plist: seq<string>)
  {
    match v
    case JArray(items) => forall i :: 0 <= i < |items| ==> AllowListed(items[i], plist)
    case JObject(ms) =>
      AppTypes.MemberNames(ms) == EmittedKeys(ms, plist) &&
      forall i :: 0 <= i < |ms| ==> AllowListed(ms[i].1, plist)
    case _ => true
  }

  // ---------------------------------------------------------------------------
  // UTF-8 and hex

  /** The UTF-8 encoding of one Unicode scalar value (RFC 3629, section 3). */
  function Utf8Char(c: char): (r: seq<byte>)
    ensures 1 <= |r| <= 4
    ensures (c as int) < 0x80 <==> |r| == 1
    ensures (c as int) < 0x80 ==> r == [c as int]
  {
    var n := c as int;
    if n < 0x80 then [n]
    else if n < 0x800 then [0xC0 + n / 64, 0x80 + n % 64]
    else if n < 0x10000 then [0xE0 + n / 4096, 0x80 + (n / 64) % 64, 0x80 + n % 64]
    else [0xF0 + n / 262144, 0x80 + (n / 4096) % 64, 0x80 + (n / 64) % 64, 0x80 + n % 64]
  }

  /** `Buffer.from(s, "utf8")`. */
  function Utf8(s: string): (r: seq<byte>)
    ensures |s| <= |r| <= 4 * |s|
  {
    if s == [] then [] else Utf8Char(s[0]) + Utf8(s[1..])
  }

  /** A lowercase hexadecimal digit: `0`-`9` or `a`-`f`. */
  predicate IsHexChar(c: char) {
    '0' <= c <= '9' || 'a' <= c <= 'f'
  }

  predicate IsLowerHex(s: string) {
    forall i :: 0 <= i < |s| ==> IsHexChar(s[i])
  }

  /** The lowercase digit of a nibble. */
  function HexDigit(n: nat): (c: char)
    requires n < 16
    ensures IsHexChar(c)
  {
    if n < 10 then ('0' as int + n) as char else ('a' as int + n - 10) as char
  }

  /** `digest("hex")`: two lowercase hex digits per byte, high nibble first. */
  function Hex(d: seq<byte>): (r: string)
    ensures |r| == 2 * |d|
    ensures IsLowerHex(r)
  {
    if d == [] then "" else HexByte(d[0]) + Hex(d[1..])
  }

  /** One byte's two digits, high nibble first. */
  function HexByte(b: byte): (r: string)
    ensures |r| == 2 && IsHexChar(r[0]) && IsHexChar(r[1])
  {
    [HexDigit(b / 16), HexDigit(b % 16)]
  }

  // ---------------------------------------------------------------------------
  // The two exported helpers

  /** `Object.keys(data).sort()`. */
  function SortedKeys(data: seq<(string, Json)>): seq<string> {
    StringOrder.Sort(AppTypes.MemberNames(data))
  }

  /** `JSON.stringify(data, Object.keys(data).sort())`. */
  function CanonicalString(data: seq<(string, Json)>, p: Primitives): (r: string)
    ensures |r| >= 2 && r[0] == '{' && r[|r| - 1] == '}'
    ensures r == Render(Canonicalize(JObject(data), PropertyList(SortedKeys(data))), p)
  {
    StringifyRendersCanonical(JObject(data), PropertyList(SortedKeys(data)), p);
    Stringify(JObject(data), PropertyList(SortedKeys(data)), p)
  }

  /** `generateIntegrityHash(data)`. */
  function GenerateIntegrityHash(data: seq<(string, Json)>, p: Primitives): (h: string)
    ensures |h| == 64 && IsLowerHex(h)
  {
    Hex(p.sha256(Utf8(CanonicalString(data, p))))
  }

  /** `verifyIntegrityHash(data, storedHash)`. */
  function VerifyIntegrityHash(data: seq<(string, Json)>, storedHash: string, p: Primitives): (ok: bool)
    ensures ok ==> |storedHash| == 64 && IsLowerHex(storedHash)
  {
    GenerateIntegrityHash(data, p) == storedHash
  }

  // ---------------------------------------------------------------------------
  // What the serialisation writes out

  /** Which property-list names an object emits depends only on which of them it has. */
  lemma {:induction false} EmittedKeysCongruent(ms1: seq<(string, Json)>, ms2: seq<(string, Json)>, plist: seq<string>)
    requires forall k :: k in plist ==> (IndexOfKey(ms1, k).Some? <==> IndexOfKey(ms2, k).Some?)
    ensures EmittedKeys(ms1, plist) == EmittedKeys(ms2, plist)
  {
    if plist != [] {
      EmittedKeysCongruent(ms1, ms2, plist[1..]);
    }
  }

  lemma HasKeyIffNamed(ms: seq<(string, Json)>, k: string)
    ensures IndexOfKey(ms, k).Some? <==> k in AppTypes.MemberNames(ms)
  {
    if IndexOfKey(ms, k).Some? {
      assert AppTypes.MemberNames(ms)[IndexOfKey(ms, k).value] == k;
    }
  }

  /** The member names of a canonical object are the names it emits. */
  lemma CanonicalMemberNames(ms: seq<(string, Json)>, plist: seq<string>)
    ensures Canonicalize(JObject(ms), plist).JObject?
    ensures AppTypes.MemberNames(Canonicalize(JObject(ms), plist).members) == EmittedKeys(ms, plist)
  {
  }

  /**
   * The allow-list holds at every depth: each object of the serialised tree lists
   * exactly the property-list names it has, in property-list order, and arrays keep
   * every element.
   */
  lemma {:induction false} CanonicalIsAllowListed(v: Json, plist: seq<string>)
    ensures AllowListed(Canonicalize(v, plist), plist)
    ensures v.JArray? ==> Canonicalize(v, plist).JArray? && |Canonicalize(v, plist).items| == |v.items|
    decreases v
  {
    match v
    case JArray(items) =>
      forall i | 0 <= i < |items|
        ensures AllowListed(Canonicalize(items[i], plist), plist)
      {
        CanonicalIsAllowListed(items[i], plist);
      }
    case JObject(ms) =>
      var keys := EmittedKeys(ms, plist);
      forall j | 0 <= j < |keys|
        ensures AllowListed(Canonicalize(ms[IndexOfKey(ms, keys[j]).value].1, plist), plist)
      {
        CanonicalIsAllowListed(ms[IndexOfKey(ms, keys[j]).value].1, plist);
      }
      CanonicalMemberNames(ms, plist);
      var c := Canonicalize(v, plist);
      forall k | k in plist
        ensures IndexOfKey(c.members, k).Some? <==> IndexOfKey(ms, k).Some?
      {
        HasKeyIffNamed(c.members, k);
      }
      EmittedKeysCongruent(c.members, ms, plist);
    case _ =>
  }

  /** The text SerializeJSONObject writes for member `k`: `"k":` and its serialised value. */
  function MemberText(ms: seq<(string, Json)>, k: string, plist: seq<string>, p: Primitives): string
    requires IndexOfKey(ms, k).Some?
  {
    p.quote(k) + ":" + Stringify(ms[IndexOfKey(ms, k).value].1, plist, p)
  }

  /** The member loop writes one member text per emitted name, in property-list order. */
  lemma {:induction false} ObjectPartsShape(ms: seq<(string, Json)>, keys: seq<string>, plist: seq<string>, p: Primitives)
    ensures var ek := EmittedKeys(ms, keys);
            ObjectParts(ms, keys, plist, p) == seq(|ek|, j requires 0 <= j < |ek| => MemberText(ms, ek[j], plist, p))
  {
    if keys != [] {
      ObjectPartsShape(ms, keys[1..], plist, p);
      var ek, ekr := EmittedKeys(ms, keys), EmittedKeys(ms, keys[1..]);
      var rest := seq(|ekr|, j requires 0 <= j < |ekr| => MemberText(ms, ekr[j], plist, p));
      var all := seq(|ek|, j requires 0 <= j < |ek| => MemberText(ms, ek[j], plist, p));
      if IndexOfKey(ms, keys[0]).Some? {
        assert ek == [keys[0]] + ekr;
        assert all == [MemberText(ms, keys[0], plist, p)] + rest;
      } else {
        assert ek == ekr;
        assert all == rest;
      }
    }
  }

  /** JSON.stringify under a property list writes out exactly the canonical tree. */
  lemma {:induction false} StringifyRendersCanonical(v: Json, plist: seq<string>, p: Primitives)
    ensures Stringify(v, plist, p) == Render(Canonicalize(v, plist), p)
    decreases v
  {
    match v
    case JArray(items) =>
      forall i | 0 <= i < |items|
        ensures Stringify(items[i], plist, p) == Render(Canonicalize(items[i], plist), p)
      {
        StringifyRendersCanonical(items[i], plist, p);
      }
      var c := Canonicalize(v, plist);
      assert seq(|items|, i requires 0 <= i < |items| => Stringify(items[i], plist, p))
          == seq(|c.items|, i requires 0 <= i < |c.items| => Render(c.items[i], p));
    case JObject(ms) =>
      forall i | 0 <= i < |ms|
        ensures Stringify(ms[i].1, plist, p) == Render(Canonicalize(ms[i].1, plist), p)
      {
        StringifyRendersCanonical(ms[i].1, plist, p);
      }
      ObjectPartsShape(ms, plist, plist, p);
      var c := Canonicalize(v, plist);
      var ek := EmittedKeys(ms, plist);
      forall j | 0 <= j < |ek|
        ensures MemberText(ms, ek[j], plist, p) == p.quote(c.members[j].0) + ":" + Render(c.members[j].1, p)
      {
        var i := IndexOfKey(ms, ek[j]).value;
        assert Stringify(ms[i].1, plist, p) == Render(Canonicalize(ms[i].1, plist), p);
      }
      assert seq(|ek|, j requires 0 <= j < |ek| => MemberText(ms, ek[j], plist, p))
          == seq(|c.members|, i requires 0 <= i < |c.members| => p.quote(c.members[i].0) + ":" + Render(c.members[i].1, p));
    case _ =>
  }

  /** Serialising the canonical tree again changes nothing: it is already in list form. */
  lemma {:induction false} CanonicalizeIdempotent(v: Json, plist: seq<string>)
    ensures Canonicalize(Canonicalize(v, plist), plist) == Canonicalize(v, plist)
    decreases v
  {
    match v
    case JArray(items) =>
      forall i | 0 <= i < |items|
        ensures Canonicalize(Canonicalize(items[i], plist), plist) == Canonicalize(items[i], plist)
      {
        CanonicalizeIdempotent(items[i], plist);
      }
    case JObject(ms) =>
      var ek := EmittedKeys(ms, plist);
      var c := Canonicalize(v, plist);
      CanonicalMemberNames(ms, plist);
      forall k | k in plist
        ensures IndexOfKey(c.members, k).Some? <==> IndexOfKey(ms, k).Some?
      {
        HasKeyIffNamed(c.members, k);
      }
      EmittedKeysCongruent(c.members, ms, plist);
      var cc := Canonicalize(c, plist);
      forall j | 0 <= j < |ek|
        ensures cc.members[j] == c.members[j]
      {
        var i := IndexOfKey(c.members, ek[j]).value;
        assert ek[i] == ek[j];
        CanonicalizeIdempotent(ms[IndexOfKey(ms, ek[j]).value].1, plist);
      }
    case _ =>
  }

  /** JSON.stringify sees an object only through its canonical tree. */
  lemma SameCanonicalTreeSameText(v1: Json, v2: Json, plist: seq<string>, p: Primitives)
    requires Canonicalize(v1, plist) == Canonicalize(v2, plist)
    ensures Stringify(v1, plist, p) == Stringify(v2, plist, p)
  {
    StringifyRendersCanonical(v1, plist, p);
    StringifyRendersCanonical(v2, plist, p);
  }

  // ---------------------------------------------------------------------------
  // The top level: sorted keys, each once

  /** The first-occurrence property list of a sorted list is strictly sorted. */
  lemma {:induction false} PropertyListOfSorted(s: seq<string>)
    requires StringOrder.Sorted(s)
    ensures StringOrder.StrictlySorted(PropertyList(s))
    decreases |s|
  {
    if s != [] {
      var init := s[..|s| - 1];
      var item := s[|s| - 1];
      assert StringOrder.Sorted(init);
      PropertyListOfSorted(init);
      var prev := PropertyList(init);
      if item !in prev {
        forall e | e in prev
          ensures StringOrder.Less(e, item)
        {
          assert e in init;
          var k :| 0 <= k < |init| && init[k] == e;
          assert s[k] == e;
          StringOrder.LessTotal(e, item);
        }
        assert PropertyList(s) == prev + [item];
        forall i, j | 0 <= i < j < |prev| + 1
          ensures StringOrder.Less((prev + [item])[i], (prev + [item])[j])
        {
          if j == |prev| {
            assert prev[i] in prev;
          }
        }
      }
    }
  }

  /**
   * At the top level the hash input lists every own key of `data` exactly once, in
   * ascending code-point order, each with its own value.
   */
  lemma TopLevelSortedAndComplete(data: seq<(string, Json)>)
    ensures var plist := PropertyList(SortedKeys(data));
            var c := Canonicalize(JObject(data), plist);
            var names := AppTypes.MemberNames(c.members);
            StringOrder.StrictlySorted(names) &&
            (forall k :: k in names <==> k in AppTypes.MemberNames(data)) &&
            (forall i :: 0 <= i < |c.members| ==>
               Lookup(data, names[i]).Some? &&
               c.members[i].1 == Canonicalize(Lookup(data, names[i]).value, plist))
  {
    var plist := PropertyList(SortedKeys(data));
    TopLevelPropertyList(data);
    AllPresentEmitsAll(data, plist);
    CanonicalMemberNames(data, plist);
    var c := Canonicalize(JObject(data), plist);
    forall i | 0 <= i < |c.members|
      ensures Lookup(data, plist[i]).Some? && c.members[i].1 == Canonicalize(Lookup(data, plist[i]).value, plist)
    {
    }
  }

  /** The top-level property list holds each own key once, in ascending order. */
  lemma TopLevelPropertyList(data: seq<(string, Json)>)
    ensures var plist := PropertyList(SortedKeys(data));
            StringOrder.StrictlySorted(plist) &&
            (forall k :: k in plist <==> k in AppTypes.MemberNames(data)) &&
            (forall k :: k in plist ==> IndexOfKey(data, k).Some?)
  {
    var plist := PropertyList(SortedKeys(data));
    PropertyListOfSorted(SortedKeys(data));
    forall k
      ensures k in plist <==> k in AppTypes.MemberNames(data)
      ensures k in plist ==> IndexOfKey(data, k).Some?
    {
      assert k in SortedKeys(data) <==> k in multiset(SortedKeys(data));
      HasKeyIffNamed(data, k);
    }
  }

  lemma {:induction false} AllPresentEmitsAll(ms: seq<(string, Json)>, plist: seq<string>)
    requires forall k :: k in plist ==> IndexOfKey(ms, k).Some?
    ensures EmittedKeys(ms, plist) == plist
  {
    if plist != [] {
      AllPresentEmitsAll(ms, plist[1..]);
    }
  }

  // ---------------------------------------------------------------------------
  // The hash depends only on the key-to-value mapping

  lemma {:induction false} ObjectPartsSameLookup(ms1: seq<(string, Json)>, ms2: seq<(string, Json)>,
                                                 keys: seq<string>, plist: seq<string>, p: Primitives)
    requires forall k :: Lookup(ms1, k) == Lookup(ms2, k)
    ensures ObjectParts(ms1, keys, plist, p) == ObjectParts(ms2, keys, plist, p)
  {
    if keys != [] {
      ObjectPartsSameLookup(ms1, ms2, keys[1..], plist, p);
      assert Lookup(ms1, keys[0]) == Lookup(ms2, keys[0]);
    }
  }

  /** Two objects with the same own properties and values have the same canonical text. */
  lemma SameLookupSameText(d1: seq<(string, Json)>, d2: seq<(string, Json)>, p: Primitives)
    requires forall k :: Lookup(d1, k) == Lookup(d2, k)
    ensures CanonicalString(d1, p) == CanonicalString(d2, p)
  {
    SameNamesSamePropertyList(d1, d2);
    var pl := PropertyList(SortedKeys(d1));
    ObjectPartsSameLookup(d1, d2, pl, pl, p);
    assert CanonicalString(d1, p) == "{" + Join(ObjectParts(d1, pl, pl, p)) + "}";
    assert CanonicalString(d2, p) == "{" + Join(ObjectParts(d2, pl, pl, p)) + "}";
  }

  /** Two objects with the same own properties and values hash the same. */
  lemma SameLookupSameHash(d1: seq<(string, Json)>, d2: seq<(string, Json)>, p: Primitives)
    requires forall k :: Lookup(d1, k) == Lookup(d2, k)
    ensures CanonicalString(d1, p) == CanonicalString(d2, p)
    ensures GenerateIntegrityHash(d1, p) == GenerateIntegrityHash(d2, p)
  {
    SameLookupSameText(d1, d2, p);
  }

  lemma PropertyListHasKeys(d: seq<(string, Json)>, k: string)
    ensures k in PropertyList(SortedKeys(d)) <==> Lookup(d, k).Some?
  {
    assert k in SortedKeys(d) <==> k in multiset(SortedKeys(d));
    HasKeyIffNamed(d, k);
  }

  lemma SameNamesSamePropertyList(d1: seq<(string, Json)>, d2: seq<(string, Json)>)
    requires forall k :: Lookup(d1, k) == Lookup(d2, k)
    ensures PropertyList(SortedKeys(d1)) == PropertyList(SortedKeys(d2))
  {
    var pl1 := PropertyList(SortedKeys(d1));
    var pl2 := PropertyList(SortedKeys(d2));
    PropertyListOfSorted(SortedKeys(d1));
    PropertyListOfSorted(SortedKeys(d2));
    forall k
      ensures k in pl1 <==> k in pl2
    {
      PropertyListHasKeys(d1, k);
      PropertyListHasKeys(d2, k);
    }
    StringOrder.StrictlySortedUnique(pl1, pl2);
  }

  lemma LookupInDistinct(d: seq<(string, Json)>, k: string, v: Json)
    requires DistinctKeys(d)
    ensures Lookup(d, k) == Some(v) <==> (k, v) in d
  {
    if (k, v) in d {
      var i :| 0 <= i < |d| && d[i] == (k, v);
      assert IndexOfKey(d, k).Some?;
    }
  }

  /** Reordering the members of an object (as `Object.keys` order may differ) keeps the hash. */
  lemma PermutedMembersSameHash(d1: seq<(string, Json)>, d2: seq<(string, Json)>, p: Primitives)
    requires DistinctKeys(d1) && DistinctKeys(d2)
    requires multiset(d1) == multiset(d2)
    ensures GenerateIntegrityHash(d1, p) == GenerateIntegrityHash(d2, p)
  {
    forall k
      ensures Lookup(d1, k) == Lookup(d2, k)
    {
      if Lookup(d1, k).Some? {
        var v := Lookup(d1, k).value;
        LookupInDistinct(d1, k, v);
        assert (k, v) in multiset(d1);
        LookupInDistinct(d2, k, v);
      } else if Lookup(d2, k).Some? {
        var v := Lookup(d2, k).value;
        LookupInDistinct(d2, k, v);
        assert (k, v) in multiset(d2);
        LookupInDistinct(d1, k, v);
      }
    }
    SameLookupSameHash(d1, d2, p);
  }

  /**
   * Nested objects are filtered by the top-level names: two records `{k: o1}` and
   * `{k: o2}` whose nested objects have no member called `k` (such as `{a: {b: 1}}` and
   * `{a: {b: 2}}`) serialise to the same text, so they share a hash.
   */
  lemma NestedOutsideListNotHashed(k: string, m1: seq<(string, Json)>, m2: seq<(string, Json)>, p: Primitives)
    requires forall j :: 0 <= j < |m1| ==> m1[j].0 != k
    requires forall j :: 0 <= j < |m2| ==> m2[j].0 != k
    ensures var d1, d2 := [(k, JObject(m1))], [(k, JObject(m2))];
            CanonicalString(d1, p) == CanonicalString(d2, p) &&
            GenerateIntegrityHash(d1, p) == GenerateIntegrityHash(d2, p)
  {
    var d1, d2 := [(k, JObject(m1))], [(k, JObject(m2))];
    var pl := [k];
    SingleKeyPropertyList(d1);
    SingleKeyPropertyList(d2);
    SingleKeyCanonical(k, m1);
    SingleKeyCanonical(k, m2);
    SameCanonicalTreeSameText(JObject(d1), JObject(d2), pl, p);
  }

  /** A one-member object has its member's name as property list. */
  lemma SingleKeyPropertyList(d: seq<(string, Json)>)
    requires |d| == 1
    ensures PropertyList(SortedKeys(d)) == [d[0].0]
  {
    var k := d[0].0;
    assert AppTypes.MemberNames(d) == [k];
    var sorted := StringOrder.Sort([k]);
    assert sorted[0] in multiset(sorted);
    assert sorted == [k];
    assert [k][..0] == [];
    assert PropertyList([k]) == JsCollections.Dedup([k]) == [k];
  }

  /** `{k: o}` canonicalises to `{k: {}}` under `[k]` when `o` has no member `k`. */
  lemma SingleKeyCanonical(k: string, ms: seq<(string, Json)>)
    requires forall j :: 0 <= j < |ms| ==> ms[j].0 != k
    ensures Canonicalize(JObject([(k, JObject(ms))]), [k]) == JObject([(k, JObject([]))])
  {
    assert IndexOfKey(ms, k).None?;
    assert EmittedKeys(ms, [k]) == [];
    assert Canonicalize(JObject(ms), [k]) == JObject([]);
    var d := [(k, JObject(ms))];
    assert IndexOfKey(d, k) == Some(0);
    assert EmittedKeys(d, [k]) == [k];
  }

  // ---------------------------------------------------------------------------
  // Hex and verification

  function NibbleValue(c: char): (r: Option<nat>)
    ensures r.Some? <==> IsHexChar(c)
    ensures r.Some? ==> r.value < 16 && HexDigit(r.value) == c
  {
    if '0' <= c <= '9' then Some(c as int - '0' as int)
    else if 'a' <= c <= 'f' then Some(c as int - 'a' as int + 10)
    else None
  }

  /** Reads lowercase hex back into bytes; `None` on odd length or a non-hex digit. */
  function HexDecode(s: string): Option<seq<byte>>
  {
    if s == [] then Some([])
    else if |s| == 1 then None
    else
      var hi, lo, rest := NibbleValue(s[0]), NibbleValue(s[1]), HexDecode(s[2..]);
      if hi.Some? && lo.Some? && rest.Some? then Some([hi.value * 16 + lo.value] + rest.value)
      else None
  }

  lemma NibbleOfDigit(x: nat)
    requires x < 16
    ensures NibbleValue(HexDigit(x)) == Some(x)
  {
  }

  /** A byte is its high nibble times 16 plus its low nibble. */
  lemma ByteNibbles(b: byte)
    ensures b / 16 < 16 && b % 16 < 16 && (b / 16) * 16 + b % 16 == b
  {
  }

  /** Decoding two hex digits in front of decodable text. */
  lemma HexDecodePair(c0: char, c1: char, rest: string)
    requires NibbleValue(c0).Some? && NibbleValue(c1).Some? && HexDecode(rest).Some?
    ensures HexDecode([c0, c1] + rest) ==
            Some([NibbleValue(c0).value * 16 + NibbleValue(c1).value] + HexDecode(rest).value)
  {
    var s := [c0, c1] + rest;
    assert s[0] == c0 && s[1] == c1 && s[2..] == rest;
  }

  /** Decoding one byte's two digits in front of decodable text. */
  lemma HexDecodeStep(b: byte, rest: string)
    requires HexDecode(rest).Some?
    ensures HexDecode(HexByte(b) + rest) == Some([b] + HexDecode(rest).value)
  {
    var hi, lo := b / 16, b % 16;
    ByteNibbles(b);
    NibbleOfDigit(hi);
    NibbleOfDigit(lo);
    HexDecodePair(HexDigit(hi), HexDigit(lo), rest);
  }

  lemma {:induction false} HexRoundTrip(d: seq<byte>)
    ensures HexDecode(Hex(d)) == Some(d)
  {
    if d != [] {
      HexRoundTrip(d[1..]);
      HexDecodeStep(d[0], Hex(d[1..]));
      assert [d[0]] + d[1..] == d;
    }
  }

  /** Distinct digests give distinct hex strings. */
  lemma HexInjective(a: seq<byte>, b: seq<byte>)
    requires Hex(a) == Hex(b)
    ensures a == b
  {
    HexRoundTrip(a);
    HexRoundTrip(b);
  }

  /** Verifying a freshly generated hash succeeds, and only the generated string verifies. */
  lemma VerifyExactly(data: seq<(string, Json)>, stored: string, p: Primitives)
    ensures VerifyIntegrityHash(data, stored, p) <==> stored == GenerateIntegrityHash(data, p)
    ensures VerifyIntegrityHash(data, stored, p) ==> |stored| == 64 && IsLowerHex(stored)
  {
  }

  /** The comparison is case-sensitive: an upper-cased copy of a hash with a letter fails. */
  lemma UpperCasedHashRejected(data: seq<(string, Json)>, p: Primitives, i: nat)
    requires i < 64 && 'a' <= GenerateIntegrityHash(data, p)[i] <= 'f'
    ensures !VerifyIntegrityHash(data, JsString.ToUpperAscii(GenerateIntegrityHash(data, p)), p)
  {
    var h := GenerateIntegrityHash(data, p);
    assert JsString.ToUpperAscii(h)[i] != h[i];
  }

  /** A stored hash that is not 64 lowercase hex digits never verifies. */
  lemma MalformedHashRejected(data: seq<(string, Json)>, stored: string, p: Primitives)
    requires |stored| != 64 || !IsLowerHex(stored)
    ensures !VerifyIntegrityHash(data, stored, p)
  {
  }

  // ---------------------------------------------------------------------------
  // UTF-8 loses nothing

  /** The first byte of a character's encoding tells how many bytes it has. */
  lemma Utf8LeadByte(c: char)
    ensures var r := Utf8Char(c);
            (|r| == 1 <==> r[0] < 0x80) &&
            (|r| == 2 <==> 0xC0 <= r[0] < 0xE0) &&
            (|r| == 3 <==> 0xE0 <= r[0] < 0xF0) &&
            (|r| == 4 <==> 0xF0 <= r[0])
  {
  }

  lemma Utf8CharInjective(c1: char, c2: char)
    requires Utf8Char(c1) == Utf8Char(c2)
    ensures c1 == c2
  {
    var n1, n2 := c1 as int, c2 as int;
    assert n1 == 64 * (n1 / 64) + n1 % 64;
    assert n2 == 64 * (n2 / 64) + n2 % 64;
    var q1, q2 := n1 / 64, n2 / 64;
    assert q1 == 64 * (q1 / 64) + q1 % 64;
    assert q2 == 64 * (q2 / 64) + q2 % 64;
    assert n1 / 4096 == q1 / 64;
    assert n2 / 4096 == q2 / 64;
    var t1, t2 := n1 / 4096, n2 / 4096;
    assert t1 == 64 * (t1 / 64) + t1 % 64;
    assert t2 == 64 * (t2 / 64) + t2 % 64;
    assert n1 / 262144 == t1 / 64;
    assert n2 / 262144 == t2 / 64;
  }

  /** Distinct strings have distinct UTF-8 encodings, so the digest input keeps the text. */
  lemma {:induction false} Utf8Injective(s1: string, s2: string)
    requires Utf8(s1) == Utf8(s2)
    ensures s1 == s2
  {
    if s1 != [] && s2 != [] {
      var r1, r2 := Utf8Char(s1[0]), Utf8Char(s2[0]);
      Utf8LeadByte(s1[0]);
      Utf8LeadByte(s2[0]);
      assert Utf8(s1) == r1 + Utf8(s1[1..]);
      assert Utf8(s2) == r2 + Utf8(s2[1..]);
      assert r1[0] == Utf8(s1)[0] && r2[0] == Utf8(s2)[0];
      assert |r1| == |r2|;
      assert r1 == Utf8(s1)[..|r1|] && r2 == Utf8(s2)[..|r2|];
      Utf8CharInjective(s1[0], s2[0]);
      assert Utf8(s1[1..]) == Utf8(s1)[|r1|..];
      assert Utf8(s2[1..]) == Utf8(s2)[|r2|..];
      Utf8Injective(s1[1..], s2[1..]);
      assert s1 == [s1[0]] + s1[1..];
      assert s2 == [s2[0]] + s2[1..];
    }
  }

  /**
   * Two records whose canonical texts differ give different digest inputs: any pair of
   * records that share a hash does so through a SHA-256 collision or equal text.
   */
  lemma DistinctTextDistinctDigestInput(d1: seq<(string, Json)>, d2: seq<(string, Json)>, p: Primitives)
    requires CanonicalString(d1, p) != CanonicalString(d2, p)
    ensures Utf8(CanonicalString(d1, p)) != Utf8(CanonicalString(d2, p))
  {
    if Utf8(CanonicalString(d1, p)) == Utf8(CanonicalString(d2, p)) {
      Utf8Injective(CanonicalString(d1, p), CanonicalString(d2, p));
    }
  }
}
