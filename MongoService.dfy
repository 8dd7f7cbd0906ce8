/**
 * The store wrapper of `app/services/mongoDB_service.py`: ObjectId
 * coercion, the conversion of stored documents to JSON-friendly values, the
 * generic getters and the upsert of per-candidate recommendations. The
 * database is a map from collection name to its documents in natural order.
 */
module MongoService {
  import opened Wrappers
  import opened Clock
  import opened Documents

  const Candidates: string := "candidates"
  const JobDescriptions: string := "jobdescriptions"
  const QuestionTemplates: string := "questionstemplates"
  const Recommendations: string := "recommendations"

  /** `_to_objectid`: an ObjectId as is, a string when it parses, otherwise nothing. */
  function ToObjectId(v: Value): (r: Option<ObjectId>)
    ensures v.Oid? ==> r == Some(v.oid)
    ensures v.Str? ==> r == ParseObjectId(v.s)
    ensures !v.Oid? && !v.Str? ==> r == None
  {
    match v
    case Oid(o) => Some(o)
    case Str(s) => ParseObjectId(s)
    case _ => None
  }

  /** The text of an ObjectId coerces back to the same ObjectId. */
  lemma {:induction false} ToObjectIdOfText(o: ObjectId)
    requires WellFormedOid(o)
    ensures ToObjectId(Str(o.hex)) == Some(o)
  {
    ObjectIdRoundTrip(o);
  }

  /** An optional ObjectId as the value stored for it (`None` is stored as null). */
  function OidOrNull(o: Option<ObjectId>): Value {
    if o.Some? then Oid(o.value) else Null
  }

  /**
   * The conversion `_serialize_document` applies to a value stored under a
   * key: an ObjectId becomes its text, a dict is converted key by key, and in
   * a list ObjectId items become text and dict items are converted, while
   * every other item, nested lists included, is kept as it is.
   */
  function SerializeValue(v: Value): Value {
    match v
    case Oid(o) => Str(o.hex)
    case Dict(fs) => Dict(seq(|fs|, i requires 0 <= i < |fs| => (fs[i].0, SerializeValue(fs[i].1))))
    case List(items) => List(seq(|items|, j requires 0 <= j < |items| =>
      if items[j].Oid? || items[j].Dict? then SerializeValue(items[j]) else items[j]))
    case _ => v
  }

  /** `_serialize_document(doc)`, with `None` for a missing document. */
  function SerializeDocument(doc: Option<Fields>): (r: Option<Fields>)
    ensures doc.None? <==> r.None?
    ensures doc.Some? ==> Keys(r.value) == Keys(doc.value)
    ensures doc.Some? ==> forall i :: 0 <= i < |doc.value| ==> r.value[i].1 == SerializeValue(doc.value[i].1)
  {
    if doc.None? then None else Some(SerializeValue(Dict(doc.value)).fields)
  }

  /** No ObjectId is left as a dict value, and every dict is converted throughout. */
  ghost predicate Serialized(v: Value)
    decreases v
  {
    match v
    case Oid(_) => false
    case Dict(fs) => forall i :: 0 <= i < |fs| ==> Serialized(fs[i].1)
    case List(items) => forall j :: 0 <= j < |items| ==> !items[j].Oid? && (items[j].Dict? ==> Serialized(items[j]))
    case _ => true
  }

  /** The conversion leaves nothing to convert, and converting again changes nothing. */
  lemma {:induction false} SerializeValueSpec(v: Value)
    ensures Serialized(SerializeValue(v))
    ensures SerializeValue(SerializeValue(v)) == SerializeValue(v)
    decreases v
  {
    match v
    case Oid(o) =>
    case Dict(fs) =>
      forall i | 0 <= i < |fs| ensures Serialized(SerializeValue(fs[i].1)) && SerializeValue(SerializeValue(fs[i].1)) == SerializeValue(fs[i].1) {
        SerializeValueSpec(fs[i].1);
      }
    case List(items) =>
      forall j | 0 <= j < |items| && (items[j].Oid? || items[j].Dict?)
        ensures Serialized(SerializeValue(items[j])) && SerializeValue(SerializeValue(items[j])) == SerializeValue(items[j])
      {
        SerializeValueSpec(items[j]);
      }
    case _ =>
  }

  /** An ObjectId inside a list inside a list is not converted. */
  lemma {:induction false} NestedListKeepsObjectId(o: ObjectId)
    ensures SerializeValue(Dict([("k", List([List([Oid(o)])]))])) == Dict([("k", List([List([Oid(o)])]))])
  {
    var inner := List([List([Oid(o)])]);
    assert SerializeValue(inner) == inner;
    var fs := [("k", inner)];
    assert seq(|fs|, i requires 0 <= i < |fs| => (fs[i].0, SerializeValue(fs[i].1))) == fs;
  }

  /**
   * `_serialize_document` as written: a loop that fills `out` key by key,
   * recursing into dicts and converting list items one at a time.
   */
  method SerializeFields(doc: Fields) returns (out: Fields)
    ensures out == SerializeValue(Dict(doc)).fields
    decreases Dict(doc)
  {
    out := [];
    var i := 0;
    while i < |doc|
      invariant 0 <= i <= |doc|
      invariant out == SerializeValue(Dict(doc[..i])).fields
    {
      var (k, v) := doc[i];
      var converted: Value;
      if v.Oid? {
        converted := Str(v.oid.hex);
      } else if v.Dict? {
        assert v < Dict(doc) by { assert doc[i].1 == v; }
        var inner := SerializeFields(v.fields);
        converted := Dict(inner);
      } else if v.List? {
        var outList: seq<Value> := [];
        var j := 0;
        while j < |v.items|
          invariant 0 <= j <= |v.items|
          invariant outList == SerializeValue(List(v.items[..j])).items
        {
          var item := v.items[j];
          if item.Oid? {
            outList := outList + [Str(item.oid.hex)];
          } else if item.Dict? {
            assert item < Dict(doc) by { assert doc[i].1 == v; assert v.items[j] == item; }
            var inner := SerializeFields(item.fields);
            outList := outList + [Dict(inner)];
          } else {
            outList := outList + [item];
          }
          j := j + 1;
        }
        assert v.items[..j] == v.items;
        converted := List(outList);
      } else {
        converted := v;
      }
      out := out + [(k, converted)];
      i := i + 1;
    }
    assert doc[..i] == doc;
  }

  /** The documents `get_all` returns before conversion: all matches, or the first `limit` when it is positive. */
  function Limited(docs: seq<Fields>, limit: int): (r: seq<Fields>)
    ensures r <= docs
    ensures |r| == if 0 < limit < |docs| then limit else |docs|
  {
    if limit > 0 && limit < |docs| then docs[..limit] else docs
  }

  function Matching(docs: seq<Fields>, matches: Fields -> bool): (r: seq<Fields>)
    ensures |r| <= |docs|
    ensures forall d :: d in r <==> d in docs && matches(d)
  {
    if docs == [] then []
    else
      assert docs == [docs[0]] + docs[1..];
      (if matches(docs[0]) then [docs[0]] else []) + Matching(docs[1..], matches)
  }

  /** The first document whose `_id` is the given ObjectId. */
  function FindById(docs: seq<Fields>, oid: ObjectId): (r: Option<Fields>)
    ensures r.Some? ==> r.value in docs && GetOrNull(r.value, "_id") == Oid(oid)
    ensures r.None? ==> forall d :: d in docs ==> GetOrNull(d, "_id") != Oid(oid)
  {
    if docs == [] then None
    else if GetOrNull(docs[0], "_id") == Oid(oid) then Some(docs[0])
    else
      var r := FindById(docs[1..], oid);
      assert forall d :: d in docs ==> d == docs[0] || d in docs[1..];
      r
  }

  /** The index of the first document whose `candidate_id` equals `candidate` (a missing field reads as null). */
  function FindCandidate(docs: seq<Fields>, candidate: Value): (r: Option<nat>)
    ensures r.Some? ==> r.value < |docs| && GetOrNull(docs[r.value], "candidate_id") == candidate
    ensures r.Some? ==> forall i :: 0 <= i < r.value ==> GetOrNull(docs[i], "candidate_id") != candidate
    ensures r.None? ==> forall i :: 0 <= i < |docs| ==> GetOrNull(docs[i], "candidate_id") != candidate
  {
    if docs == [] then None
    else if GetOrNull(docs[0], "candidate_id") == candidate then Some(0)
    else
      var r := FindCandidate(docs[1..], candidate);
      if r.Some? then Some(r.value + 1) else None
  }

  /** `float(v)`, with the parsing of numeric text given as `parseFloat`. */
  function ToFloat(v: Value, parseFloat: string -> Option<real>): Result<real, string> {
    match v
    case Float(r) => Ok(r)
    case Int(i) => Ok(i as real)
    case Bool(b) => Ok(if b then 1.0 else 0.0)
    case Str(s) => if parseFloat(s).Some? then Ok(parseFloat(s).value) else Err("ValueError")
    case _ => Err("TypeError")
  }

  /** `int(x)` of a float: truncation toward zero. */
  function Truncate(r: real): (i: int)
    ensures r >= 0.0 ==> 0 <= i && i as real <= r < (i + 1) as real
    ensures r < 0.0 ==> i <= 0 && (i - 1) as real < r <= i as real
  {
    if r >= 0.0 then r.Floor else -((-r).Floor)
  }

  /** `int(v)`, with the parsing of integer text given as `parseInt`. */
  function ToInt(v: Value, parseInt: string -> Option<int>): Result<int, string> {
    match v
    case Int(i) => Ok(i)
    case Bool(b) => Ok(if b then 1 else 0)
    case Float(r) => Ok(Truncate(r))
    case Str(s) => if parseInt(s).Some? then Ok(parseInt(s).value) else Err("ValueError")
    case _ => Err("TypeError")
  }

  /** One normalised entry of `recommended_jobs`: `job_id` coerced, `score` and `rank` defaulting to 0.0 and 0. */
  function NormalizeJob(j: Value, parseFloat: string -> Option<real>, parseInt: string -> Option<int>): (r: Result<Value, string>)
    ensures r.Ok? ==> j.Dict? && r.value.Dict? && Keys(r.value.fields) == ["job_id", "score", "rank"]
    ensures r.Ok? ==> r.value.fields[0].1 == OidOrNull(ToObjectId(GetOrNull(j.fields, "job_id")))
    ensures j.Dict? && !HasKey(j.fields, "score") && !HasKey(j.fields, "rank") ==> r.Ok? && r.value.fields[1].1 == Float(0.0) && r.value.fields[2].1 == Int(0)
  {
    if !j.Dict? then Err("AttributeError")
    else
      var score := ToFloat(Get(j.fields, "score").GetOr(Float(0.0)), parseFloat);
      var rank := ToInt(Get(j.fields, "rank").GetOr(Int(0)), parseInt);
      if score.Err? then Err(score.error)
      else if rank.Err? then Err(rank.error)
      else Ok(Dict([("job_id", OidOrNull(ToObjectId(GetOrNull(j.fields, "job_id")))), ("score", Float(score.value)), ("rank", Int(rank.value))]))
  }

  /** The entries `data.get("recommended_jobs", [])` iterates over, or the error iterating raises. */
  function RecommendedItems(data: Fields): Result<seq<Value>, string> {
    match Get(data, "recommended_jobs")
    case None => Ok([])
    case Some(List(items)) => Ok(items)
    case Some(Dict(fs)) => if fs == [] then Ok([]) else Err("AttributeError")
    case Some(Str(s)) => if s == "" then Ok([]) else Err("AttributeError")
    case Some(_) => Err("TypeError")
  }

  /** All entries normalised in order, or the first error. */
  function NormalizeJobs(items: seq<Value>, parseFloat: string -> Option<real>, parseInt: string -> Option<int>): (r: Result<seq<Value>, string>)
    ensures r.Ok? ==> |r.value| == |items| && forall i :: 0 <= i < |items| ==> NormalizeJob(items[i], parseFloat, parseInt) == Ok(r.value[i])
    ensures r.Err? <==> exists i :: 0 <= i < |items| && NormalizeJob(items[i], parseFloat, parseInt).Err?
  {
    if items == [] then Ok([])
    else
      var last := NormalizeJob(items[|items| - 1], parseFloat, parseInt);
      var init := NormalizeJobs(items[..|items| - 1], parseFloat, parseInt);
      if init.Err? then
        var i :| 0 <= i < |items| - 1 && NormalizeJob(items[..|items| - 1][i], parseFloat, parseInt).Err?;
        assert items[..|items| - 1][i] == items[i];
        init
      else if last.Err? then Err(last.error)
      else
        var out := init.value + [last.value];
        assert forall i :: 0 <= i < |items| - 1 ==> items[..|items| - 1][i] == items[i] && out[i] == init.value[i];
        Ok(out)
  }

  /** What `upsert_ranked_resume_out` receives: a pydantic model (through `model_dump`) or a plain value. */
  datatype RankedInput = ModelInput(dump: Fields) | PlainInput(value: Value)

  /** The update of the upsert: candidate, owner, name, normalised jobs, and `updatedAt`. */
  datatype UpsertPayload = UpsertPayload(candidate: Value, owner: Value, name: Value, jobs: seq<Value>, updatedAt: Value)

  /** The `$set` stage of the upsert applied to a document. */
  function SetPayload(doc: Fields, p: UpsertPayload): Fields {
    Put(Put(Put(Put(Put(doc, "candidate_id", p.candidate), "owner", p.owner), "name", p.name), "recommended_jobs", List(p.jobs)), "updatedAt", p.updatedAt)
  }

  /** After the `$set` stage the five payload keys hold the payload and every other key is untouched. */
  lemma {:induction false} SetPayloadSpec(doc: Fields, p: UpsertPayload, other: string)
    requires other !in {"candidate_id", "owner", "name", "recommended_jobs", "updatedAt"}
    ensures var d := SetPayload(doc, p);
      && Get(d, "candidate_id") == Some(p.candidate) && Get(d, "owner") == Some(p.owner)
      && Get(d, "name") == Some(p.name) && Get(d, "recommended_jobs") == Some(List(p.jobs))
      && Get(d, "updatedAt") == Some(p.updatedAt)
      && Get(d, other) == Get(doc, other)
  {
    var d1 := Put(doc, "candidate_id", p.candidate);
    var d2 := Put(d1, "owner", p.owner);
    var d3 := Put(d2, "name", p.name);
    var d4 := Put(d3, "recommended_jobs", List(p.jobs));
    PutOther(d4, "updatedAt", p.updatedAt, "recommended_jobs");
    PutOther(d3, "recommended_jobs", List(p.jobs), "name");
    PutOther(d4, "updatedAt", p.updatedAt, "name");
    PutOther(d2, "name", p.name, "owner");
    PutOther(d3, "recommended_jobs", List(p.jobs), "owner");
    PutOther(d4, "updatedAt", p.updatedAt, "owner");
    PutOther(d1, "owner", p.owner, "candidate_id");
    PutOther(d2, "name", p.name, "candidate_id");
    PutOther(d3, "recommended_jobs", List(p.jobs), "candidate_id");
    PutOther(d4, "updatedAt", p.updatedAt, "candidate_id");
    PutOther(doc, "candidate_id", p.candidate, other);
    PutOther(d1, "owner", p.owner, other);
    PutOther(d2, "name", p.name, other);
    PutOther(d3, "recommended_jobs", List(p.jobs), other);
    PutOther(d4, "updatedAt", p.updatedAt, other);
  }

  /** The document an upsert inserts when no document has the candidate. */
  function InsertedDoc(p: UpsertPayload, now: int, freshId: ObjectId): Fields {
    Put(SetPayload([("_id", Oid(freshId)), ("candidate_id", p.candidate)], p), "createdAt", Date(DateTime(now, None)))
  }

  /** `find_one_and_update(..., upsert=True)` on the recommendations: the new documents and the document after the update. */
  function ApplyUpsert(docs: seq<Fields>, p: UpsertPayload, now: int, freshId: ObjectId): (seq<Fields>, Fields) {
    match FindCandidate(docs, p.candidate)
    case Some(i) => (docs[i := SetPayload(docs[i], p)], SetPayload(docs[i], p))
    case None => (docs + [InsertedDoc(p, now, freshId)], InsertedDoc(p, now, freshId))
  }

  /**
   * An upsert for a stored candidate rewrites that document only and keeps
   * its `createdAt`; for a new candidate it appends one document whose
   * `createdAt` is the time of the upsert. Either way the document holds the
   * payload.
   */
  lemma {:induction false} ApplyUpsertSpec(docs: seq<Fields>, p: UpsertPayload, now: int, freshId: ObjectId)
    ensures var (after, doc) := ApplyUpsert(docs, p, now, freshId);
      && Get(doc, "candidate_id") == Some(p.candidate) && Get(doc, "recommended_jobs") == Some(List(p.jobs))
      && Get(doc, "updatedAt") == Some(p.updatedAt)
      && (FindCandidate(docs, p.candidate).Some? ==>
            var i := FindCandidate(docs, p.candidate).value;
            |after| == |docs| && after[i] == doc && Get(doc, "createdAt") == Get(docs[i], "createdAt")
            && Get(doc, "_id") == Get(docs[i], "_id")
            && forall k :: 0 <= k < |docs| && k != i ==> after[k] == docs[k])
      && (FindCandidate(docs, p.candidate).None? ==>
            after == docs + [doc] && Get(doc, "createdAt") == Some(Date(DateTime(now, None))) && Get(doc, "_id") == Some(Oid(freshId)))
  {
    match FindCandidate(docs, p.candidate)
    case Some(i) =>
      SetPayloadSpec(docs[i], p, "createdAt");
      SetPayloadSpec(docs[i], p, "_id");
    case None =>
      InsertedDocSpec(p, now, freshId);
  }

  /** The inserted document holds the payload, the fresh id and the creation time. */
  lemma {:induction false} InsertedDocSpec(p: UpsertPayload, now: int, freshId: ObjectId)
    ensures var doc := InsertedDoc(p, now, freshId);
      && Get(doc, "candidate_id") == Some(p.candidate) && Get(doc, "recommended_jobs") == Some(List(p.jobs))
      && Get(doc, "updatedAt") == Some(p.updatedAt)
      && Get(doc, "createdAt") == Some(Date(DateTime(now, None))) && Get(doc, "_id") == Some(Oid(freshId))
  {
    var base: Fields := [("_id", Oid(freshId)), ("candidate_id", p.candidate)];
    SetPayloadSpec(base, p, "_id");
    var d := SetPayload(base, p);
    PutOther(d, "createdAt", Date(DateTime(now, None)), "candidate_id");
    PutOther(d, "createdAt", Date(DateTime(now, None)), "recommended_jobs");
    PutOther(d, "createdAt", Date(DateTime(now, None)), "updatedAt");
    PutOther(d, "createdAt", Date(DateTime(now, None)), "_id");
  }

  lemma {:induction false} FindCandidateFirst(docs: seq<Fields>, candidate: Value, i: nat)
    requires i < |docs| && GetOrNull(docs[i], "candidate_id") == candidate
    requires forall k :: 0 <= k < i ==> GetOrNull(docs[k], "candidate_id") != candidate
    ensures FindCandidate(docs, candidate) == Some(i)
  {
    if i > 0 {
      FindCandidateFirst(docs[1..], candidate, i - 1);
    }
  }

  /** Rewriting the first document of a candidate, keeping its candidate, leaves it the first. */
  lemma {:induction false} RewrittenIsFound(docs: seq<Fields>, candidate: Value, i: nat, doc: Fields)
    requires FindCandidate(docs, candidate) == Some(i) && GetOrNull(doc, "candidate_id") == candidate
    ensures FindCandidate(docs[i := doc], candidate) == Some(i)
  {
    var after := docs[i := doc];
    assert forall k :: 0 <= k < i ==> after[k] == docs[k];
    FindCandidateFirst(after, candidate, i);
  }

  /** A document appended for a candidate no document has is the first of that candidate. */
  lemma {:induction false} AppendedIsFound(docs: seq<Fields>, candidate: Value, doc: Fields)
    requires FindCandidate(docs, candidate).None? && GetOrNull(doc, "candidate_id") == candidate
    ensures FindCandidate(docs + [doc], candidate) == Some(|docs|)
  {
    var after := docs + [doc];
    assert forall k :: 0 <= k < |docs| ==> after[k] == docs[k];
    FindCandidateFirst(after, candidate, |docs|);
  }

  /** After an upsert, the candidate's first document is the one the upsert wrote. */
  lemma {:induction false} UpsertedIsFound(docs: seq<Fields>, p: UpsertPayload, now: int, freshId: ObjectId)
    ensures var (after, doc) := ApplyUpsert(docs, p, now, freshId);
      FindCandidate(after, p.candidate).Some? && after[FindCandidate(after, p.candidate).value] == doc
  {
    ApplyUpsertSpec(docs, p, now, freshId);
    match FindCandidate(docs, p.candidate)
    case Some(i) =>
      RewrittenIsFound(docs, p.candidate, i, SetPayload(docs[i], p));
    case None =>
      AppendedIsFound(docs, p.candidate, InsertedDoc(p, now, freshId));
  }

  /** A second upsert for the same candidate updates the document the first one wrote instead of adding another. */
  lemma {:induction false} UpsertTwiceKeepsOneDocument(docs: seq<Fields>, p: UpsertPayload, q: UpsertPayload, now: int, later: int, id1: ObjectId, id2: ObjectId)
    requires q.candidate == p.candidate
    ensures var (once, first) := ApplyUpsert(docs, p, now, id1);
      var (twice, second) := ApplyUpsert(once, q, later, id2);
      |twice| == |once| && Get(second, "createdAt") == Get(first, "createdAt")
  {
    var (once, first) := ApplyUpsert(docs, p, now, id1);
    UpsertedIsFound(docs, p, now, id1);
    ApplyUpsertSpec(once, q, later, id2);
  }

  /** The lookup of `get_by_id` over one collection's documents. */
  function LookupById(docs: seq<Fields>, objectId: string): (r: Option<Fields>)
    ensures ParseObjectId(objectId).None? ==> r.None?
    ensures r.Some? ==> exists d :: (d in docs && GetOrNull(d, "_id") == Oid(ParseObjectId(objectId).value)
      && d != [] && SerializeDocument(Some(d)) == r)
    ensures ParseObjectId(objectId).Some? && FindById(docs, ParseObjectId(objectId).value).Some?
            && FindById(docs, ParseObjectId(objectId).value).value != []
            ==> r == SerializeDocument(FindById(docs, ParseObjectId(objectId).value))
  {
    var oid := ParseObjectId(objectId);
    if oid.None? then None
    else
      var doc := FindById(docs, oid.value);
      if doc.Some? && doc.value != [] then SerializeDocument(doc) else None
  }

  class MongoService {
    /** Each collection's documents, in the order the store returns them. */
    var collections: map<string, seq<Fields>>

    constructor(collections: map<string, seq<Fields>>)
      ensures this.collections == collections
    {
      this.collections := collections;
    }

    /** A collection's documents; a collection that does not exist is empty. */
    function Docs(name: string): seq<Fields>
      reads this
    {
      if name in collections then collections[name] else []
    }

    /**
     * `get_by_id`: the converted document whose `_id` is the given id; an
     * id that is not an ObjectId, or no matching document, gives nothing.
     */
    function GetById(collection: string, objectId: string): (r: Option<Fields>)
      reads this
      ensures ParseObjectId(objectId).None? ==> r.None?
      ensures r.Some? ==> exists d :: (d in Docs(collection) && GetOrNull(d, "_id") == Oid(ParseObjectId(objectId).value)
        && d != [] && SerializeDocument(Some(d)) == r)
      ensures ParseObjectId(objectId).Some? && FindById(Docs(collection), ParseObjectId(objectId).value).Some?
              && FindById(Docs(collection), ParseObjectId(objectId).value).value != []
              ==> r == SerializeDocument(FindById(Docs(collection), ParseObjectId(objectId).value))
    {
      LookupById(Docs(collection), objectId)
    }

    function GetResumeById(objectId: string): Option<Fields>
      reads this
    {
      GetById(Candidates, objectId)
    }

    function GetJobById(objectId: string): Option<Fields>
      reads this
    {
      GetById(JobDescriptions, objectId)
    }

    /**
     * `get_all`: the converted matching documents, all of them when `limit`
     * is 0 or negative, at most `limit` otherwise.
     */
    function GetAll(collection: string, matches: Fields -> bool, limit: int): (r: seq<Fields>)
      reads this
      ensures limit > 0 ==> |r| <= limit
      ensures |r| == |Limited(Matching(Docs(collection), matches), limit)|
      ensures forall i :: 0 <= i < |r| ==> Some(r[i]) == SerializeDocument(Some(Limited(Matching(Docs(collection), matches), limit)[i]))
      ensures limit <= 0 ==> |r| == |Matching(Docs(collection), matches)|
    {
      var docs := Limited(Matching(Docs(collection), matches), limit);
      seq(|docs|, i requires 0 <= i < |docs| => SerializeDocument(Some(docs[i])).value)
    }

    /** The `$set` payload `upsert_ranked_resume_out` builds from its input, or the error it raises. */
    static function PayloadOf(input: RankedInput, now: int, parseFloat: string -> Option<real>, parseInt: string -> Option<int>)
      : (r: Result<UpsertPayload, string>)
      ensures input.PlainInput? && !input.value.Dict? ==> r.Err?
      ensures r.Ok? ==> r.value.updatedAt == Date(DateTime(now, None))
      ensures r.Ok? ==> var data := if input.ModelInput? then input.dump else input.value.fields;
        && r.value.candidate == OidOrNull(ToObjectId(GetOrNull(data, "candidate_id")))
        && r.value.owner == OidOrNull(ToObjectId(GetOrNull(data, "owner")))
        && r.value.name == GetOrNull(data, "name")
        && RecommendedItems(data).Ok? && NormalizeJobs(RecommendedItems(data).value, parseFloat, parseInt) == Ok(r.value.jobs)
    {
      if input.PlainInput? && !input.value.Dict? then Err("TypeError")
      else
        var data := if input.ModelInput? then input.dump else input.value.fields;
        var items := RecommendedItems(data);
        if items.Err? then Err(items.error)
        else
          var jobs := NormalizeJobs(items.value, parseFloat, parseInt);
          if jobs.Err? then Err(jobs.error)
          else Ok(UpsertPayload(OidOrNull(ToObjectId(GetOrNull(data, "candidate_id"))), OidOrNull(ToObjectId(GetOrNull(data, "owner"))),
                                GetOrNull(data, "name"), jobs.value, Date(DateTime(now, None))))
    }

    /**
     * `upsert_ranked_resume_out` at time `now` (naive UTC). `freshId` is
     * the `_id` an insert receives; `dbFails` says whether the database call
     * raises. Returns the converted document after the update, or the error.
     */
    method UpsertRankedResumeOut(input: RankedInput, now: int, freshId: ObjectId, dbFails: bool,
                                 parseFloat: string -> Option<real>, parseInt: string -> Option<int>)
      returns (r: Result<Fields, string>)
      modifies this
      ensures r.Err? ==> collections == old(collections)
      ensures r.Err? <==> PayloadOf(input, now, parseFloat, parseInt).Err? || dbFails
      ensures r.Ok? ==>
        var (after, doc) := ApplyUpsert(old(Docs(Recommendations)), PayloadOf(input, now, parseFloat, parseInt).value, now, freshId);
        collections == old(collections)[Recommendations := after] && Some(r.value) == SerializeDocument(Some(doc))
    {
      if input.PlainInput? && !input.value.Dict? {
        return Err("TypeError");
      }
      var data := if input.ModelInput? then input.dump else input.value.fields;
      var items := RecommendedItems(data);
      if items.Err? {
        return Err(items.error);
      }
      var recJobs := NormalizeRecommendedJobs(items.value, parseFloat, parseInt);
      if recJobs.Err? {
        return Err(recJobs.error);
      }
      var payload := UpsertPayload(OidOrNull(ToObjectId(GetOrNull(data, "candidate_id"))), OidOrNull(ToObjectId(GetOrNull(data, "owner"))),
                                   GetOrNull(data, "name"), recJobs.value, Date(DateTime(now, None)));
      assert PayloadOf(input, now, parseFloat, parseInt) == Ok(payload);
      if dbFails {
        return Err("database error");
      }
      var result := ApplyUpsert(Docs(Recommendations), payload, now, freshId);
      collections := collections[Recommendations := result.0];
      r := Ok(SerializeDocument(Some(result.1)).value);
    }
  }

  /** The loop that builds `rec_jobs` entry by entry; the first entry that cannot be normalised raises. */
  method NormalizeRecommendedJobs(items: seq<Value>, parseFloat: string -> Option<real>, parseInt: string -> Option<int>)
    returns (r: Result<seq<Value>, string>)
    ensures r.Ok? <==> NormalizeJobs(items, parseFloat, parseInt).Ok?
    ensures r.Ok? ==> r == NormalizeJobs(items, parseFloat, parseInt)
  {
    var recJobs: seq<Value> := [];
    var i := 0;
    while i < |items|
      invariant 0 <= i <= |items|
      invariant NormalizeJobs(items[..i], parseFloat, parseInt) == Ok(recJobs)
    {
      var job := NormalizeJob(items[i], parseFloat, parseInt);
      if job.Err? {
        NormalizeJobsFails(items, i, parseFloat, parseInt);
        return Err(job.error);
      }
      assert items[..i + 1][..i] == items[..i];
      recJobs := recJobs + [job.value];
      i := i + 1;
    }
    assert items[..i] == items;
    r := Ok(recJobs);
  }

  /** One entry that cannot be normalised makes the whole list fail. */
  lemma {:induction false} NormalizeJobsFails(items: seq<Value>, i: nat, parseFloat: string -> Option<real>, parseInt: string -> Option<int>)
    requires i < |items| && NormalizeJob(items[i], parseFloat, parseInt).Err?
    ensures NormalizeJobs(items, parseFloat, parseInt).Err?
  {
  }
}
