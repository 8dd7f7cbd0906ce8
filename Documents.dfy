/**
 * BSON-like documents as the services read them from the store: scalars,
 * ObjectIds, datetimes, nested dicts (ordered key/value lists, like Python
 * dicts), lists, and values of any other type, kept with their `str()` text.
 */
module Documents {
  import opened Wrappers
  import opened Clock
  import opened Text

  /** A BSON ObjectId, kept as the 24 lower-case hexadecimal digits `str(oid)` gives. */
  datatype ObjectId = ObjectId(hex: string)

  predicate IsHexDigit(c: char) {
    ('0' <= c <= '9') || ('a' <= c <= 'f') || ('A' <= c <= 'F')
  }

  predicate IsLowerHexDigit(c: char) {
    ('0' <= c <= '9') || ('a' <= c <= 'f')
  }

  predicate WellFormedOid(o: ObjectId) {
    |o.hex| == 24 && forall i :: 0 <= i < 24 ==> IsLowerHexDigit(o.hex[i])
  }

  /** `ObjectId(s)` for a string `s`: accepted exactly when it is 24 hexadecimal digits. */
  function ParseObjectId(s: string): (r: Option<ObjectId>)
    ensures r.Some? <==> |s| == 24 && forall i :: 0 <= i < |s| ==> IsHexDigit(s[i])
    ensures r.Some? ==> WellFormedOid(r.value) && r.value.hex == Lower(s)
  {
    if |s| == 24 && forall i :: 0 <= i < |s| ==> IsHexDigit(s[i]) then Some(ObjectId(Lower(s))) else None
  }

  /** Printing an ObjectId and parsing the text back gives the same ObjectId. */
  lemma {:induction false} ObjectIdRoundTrip(o: ObjectId)
    requires WellFormedOid(o)
    ensures ParseObjectId(o.hex) == Some(o)
  {
    assert Lower(o.hex) == o.hex;
  }

  datatype Value =
    | Null
    | Bool(b: bool)
    | Int(i: int)
    | Float(r: real)
    | Str(s: string)
    | Oid(oid: ObjectId)
    | Date(dt: DateTime)
    | Dict(fields: seq<(string, Value)>)
    | List(items: seq<Value>)
    | Other(repr: string)

  /** A document: its key/value pairs in insertion order. */
  type Fields = seq<(string, Value)>

  function Keys(f: Fields): (ks: seq<string>)
    ensures |ks| == |f| && forall i :: 0 <= i < |f| ==> ks[i] == f[i].0
  {
    if f == [] then [] else [f[0].0] + Keys(f[1..])
  }

  predicate HasKey(f: Fields, k: string) {
    k in Keys(f)
  }

  /** `doc.get(k)`: the value stored under the first occurrence of `k`. */
  function Get(f: Fields, k: string): (r: Option<Value>)
    ensures r.Some? <==> HasKey(f, k)
    ensures r.Some? ==> (k, r.value) in f
  {
    if f == [] then None
    else if f[0].0 == k then Some(f[0].1)
    else Get(f[1..], k)
  }

  /** `doc.get(k)` as a value, `None` when absent. */
  function GetOrNull(f: Fields, k: string): Value {
    Get(f, k).GetOr(Null)
  }

  /** Keys and lookups of a document with one more field in front. */
  lemma {:induction false} ConsFields(p: (string, Value), rest: Fields, k: string)
    ensures Keys([p] + rest) == [p.0] + Keys(rest)
    ensures Get([p] + rest, k) == if p.0 == k then Some(p.1) else Get(rest, k)
  {
    assert ([p] + rest)[1..] == rest;
  }

  /** `doc[k] = v`: replaces the value in place when `k` is a key, appends otherwise. */
  function Put(f: Fields, k: string, v: Value): (r: Fields)
    ensures HasKey(f, k) ==> Keys(r) == Keys(f)
    ensures !HasKey(f, k) ==> Keys(r) == Keys(f) + [k]
    ensures Get(r, k) == Some(v)
  {
    if f == [] then [(k, v)]
    else
      assert f == [f[0]] + f[1..];
      ConsFields(f[0], f[1..], k);
      if f[0].0 == k then
        ConsFields((k, v), f[1..], k);
        [(k, v)] + f[1..]
      else
        var rest := Put(f[1..], k, v);
        PutBehind(f[0], f[1..], k, rest);
        [f[0]] + rest
  }

  /** Setting `k` behind a first field with another key keeps that field in front. */
  lemma {:induction false} PutBehind(p: (string, Value), tail: Fields, k: string, rest: Fields)
    requires p.0 != k
    requires HasKey(tail, k) ==> Keys(rest) == Keys(tail)
    requires !HasKey(tail, k) ==> Keys(rest) == Keys(tail) + [k]
    ensures HasKey([p] + tail, k) <==> HasKey(tail, k)
    ensures HasKey(tail, k) ==> Keys([p] + rest) == Keys([p] + tail)
    ensures !HasKey(tail, k) ==> Keys([p] + rest) == Keys([p] + tail) + [k]
    ensures Get([p] + rest, k) == Get(rest, k)
  {
    ConsFields(p, tail, k);
    ConsFields(p, rest, k);
    assert [p.0] + (Keys(tail) + [k]) == [p.0] + Keys(tail) + [k];
  }

  /**
   * Model validation of each raw document, skipping those that fail: the
   * documents that validate, in order.
   */
  function Keep(docs: seq<Fields>, valid: Fields -> bool): (r: seq<Fields>)
  {
    if docs == [] then [] else (if valid(docs[0]) then [docs[0]] else []) + Keep(docs[1..], valid)
  }

  /** The kept documents are exactly the valid raw ones, and there are at most as many. */
  lemma {:induction false} KeepSpec(docs: seq<Fields>, valid: Fields -> bool)
    ensures |Keep(docs, valid)| <= |docs|
    ensures forall d :: d in Keep(docs, valid) <==> d in docs && valid(d)
  {
    if docs != [] {
      KeepSpec(docs[1..], valid);
      assert docs == [docs[0]] + docs[1..];
    }
  }

  lemma {:induction false} KeepAppend(docs: seq<Fields>, valid: Fields -> bool, i: nat)
    requires i < |docs|
    ensures Keep(docs[..i + 1], valid) == Keep(docs[..i], valid) + (if valid(docs[i]) then [docs[i]] else [])
  {
    if i == 0 {
      assert docs[..1] == [docs[0]];
    } else {
      assert docs[..i + 1][1..] == docs[1..][..i];
      assert docs[..i][1..] == docs[1..][..i - 1];
      KeepAppend(docs[1..], valid, i - 1);
      assert docs[1..][..i] == docs[1..][..i - 1 + 1];
    }
  }

  /** Setting one key leaves every other key's value as it was. */
  lemma {:induction false} PutOther(f: Fields, k: string, v: Value, other: string)
    requires other != k
    ensures Get(Put(f, k, v), other) == Get(f, other)
  {
    if f != [] && f[0].0 != k {
      PutOther(f[1..], k, v, other);
    }
  }

  /** Python truthiness of a value; values of other types count as true. */
  predicate Truthy(v: Value) {
    match v
    case Null => false
    case Bool(b) => b
    case Int(i) => i != 0
    case Float(r) => r != 0.0
    case Str(s) => s != ""
    case Oid(_) => true
    case Date(_) => true
    case Dict(fs) => fs != []
    case List(xs) => xs != []
    case Other(_) => true
  }

  /** `a or b`: the first operand when it is truthy, else the second. */
  function Or(a: Value, b: Value): (r: Value)
    ensures Truthy(a) ==> r == a
    ensures !Truthy(a) ==> r == b
    ensures r == a || r == b
    ensures Truthy(r) <==> Truthy(a) || Truthy(b)
  {
    if Truthy(a) then a else b
  }
}
