/**
 * `MultiJobRankingService` of `app/services/multi_job.py`: ranks the
 * resumes for every job template, collects each candidate's
 * recommendations, orders them by (rank, -score) and upserts one document
 * per candidate. The ranker is a function given as a parameter.
 */
module MultiJob {
  import opened Wrappers
  import opened Text
  import opened Documents
  import opened Sorting
  import opened MongoService

  /** The job template fields the service reads (each `None` when unset). */
  datatype JobTemplate = JobTemplate(
    underscoreId: Option<string>, id: Option<string>,
    templateTitle: Option<string>, templateDescription: Option<string>, jobSummary: Option<string>,
    skills: Option<seq<string>>)

  function Part(field: Option<string>): (r: seq<string>)
    ensures Given(field) ==> r == [field.value]
    ensures !Given(field) ==> r == []
  {
    if Given(field) then [field.value] else []
  }

  function SkillsLine(skills: Option<seq<string>>): seq<string> {
    if skills.Some? && skills.value != [] then ["Skills: " + Join(skills.value, ", ")] else []
  }

  /** The parts of the job text: the truthy title, description and summary, then the skills line. */
  function TextParts(job: JobTemplate): (parts: seq<string>)
    ensures |parts| <= 4
    ensures forall i :: 0 <= i < |parts| ==> parts[i] != ""
    ensures Given(job.templateTitle) ==> |parts| > 0 && parts[0] == job.templateTitle.value
  {
    Part(job.templateTitle) + Part(job.templateDescription) + Part(job.jobSummary) + SkillsLine(job.skills)
  }

  /** `job.templateTitle or job.jobSummary or ""`. */
  function Fallback(job: JobTemplate): string {
    if Given(job.templateTitle) then job.templateTitle.value
    else if Given(job.jobSummary) then job.jobSummary.value
    else ""
  }

  /** `_jobtemplate_to_text`: the stripped parts joined by blank lines, or the fallback when that is empty. */
  function JobTemplateToText(job: JobTemplate): (text: string)
    ensures Strip(Join(TextParts(job), "\n\n")) != "" ==> text == Strip(Join(TextParts(job), "\n\n"))
    ensures Strip(Join(TextParts(job), "\n\n")) == "" ==> text == Fallback(job)
  {
    var joined := Strip(Join(TextParts(job), "\n\n"));
    if joined != "" then joined else Fallback(job)
  }

  /** Whether every part of the job text is blank. */
  predicate AllPartsBlank(parts: seq<string>) {
    forall i :: 0 <= i < |parts| ==> AllSpace(parts[i])
  }

  /**
   * The text falls back to the title or summary exactly when every part is
   * blank; otherwise it is the stripped join, which is not empty.
   */
  lemma {:induction false} JobTextFallsBackWhenBlank(job: JobTemplate)
    ensures AllPartsBlank(TextParts(job)) ==> JobTemplateToText(job) == Fallback(job)
    ensures !AllPartsBlank(TextParts(job)) ==>
      JobTemplateToText(job) == Strip(Join(TextParts(job), "\n\n")) && JobTemplateToText(job) != ""
  {
    var parts := TextParts(job);
    assert IsSpace('\n');
    assert AllSpace("\n\n");
    JoinAllSpace(parts, "\n\n");
  }

  /** A template without title, description, summary or skills yields the empty text. */
  lemma {:induction false} EmptyTemplateText(job: JobTemplate)
    requires !Given(job.templateTitle) && !Given(job.templateDescription) && !Given(job.jobSummary)
    requires job.skills.None? || job.skills.value == []
    ensures JobTemplateToText(job) == ""
  {
    assert TextParts(job) == [];
  }

  /** `str(job._id or job.id or "")`. */
  function JobIdOf(job: JobTemplate): (id: string)
    ensures id == "" <==> !Given(job.underscoreId) && !Given(job.id)
    ensures Given(job.underscoreId) ==> id == job.underscoreId.value
    ensures !Given(job.underscoreId) && Given(job.id) ==> id == job.id.value
  {
    if Given(job.underscoreId) then job.underscoreId.value else if Given(job.id) then job.id.value else ""
  }

  /** `top_k_per_job` for a run: the argument when given, else the service's default. */
  function EffectiveTopK(default: int, argument: Option<int>): (k: int)
    ensures argument.Some? ==> k == argument.value
    ensures argument.None? ==> k == default
  {
    if argument.Some? then argument.value else default
  }

  /** One recommended job: `{job_id, score, rank}`. */
  datatype Rec = Rec(jobId: string, score: real, rank: int)

  /** An entry of the ranker's result. */
  datatype RankedOut = RankedOut(candidateId: Option<string>, recommendedJobs: seq<Rec>)

  /** A candidate id with one recommendation for it. */
  type Entry = (string, Rec)

  /**
   * What one ranked entry contributes: nothing when its candidate id is
   * empty or when its `recommended_jobs` is empty (the `IndexError` is caught),
   * otherwise this job's id with the entry's first score and rank.
   */
  function EntryOf(jobId: string, rr: RankedOut): (es: seq<Entry>)
    ensures |es| <= 1
    ensures es != [] <==> Given(rr.candidateId) && rr.recommendedJobs != []
    ensures es != [] ==> es[0] == (rr.candidateId.value, Rec(jobId, rr.recommendedJobs[0].score, rr.recommendedJobs[0].rank))
  {
    if !Given(rr.candidateId) || rr.recommendedJobs == [] then []
    else [(rr.candidateId.value, Rec(jobId, rr.recommendedJobs[0].score, rr.recommendedJobs[0].rank))]
  }

  function JobEntries(jobId: string, ranked: seq<RankedOut>): seq<Entry> {
    if ranked == [] then [] else JobEntries(jobId, ranked[..|ranked| - 1]) + EntryOf(jobId, ranked[|ranked| - 1])
  }

  /** Every entry a job contributes carries that job's id, and there is at most one per ranked entry. */
  lemma {:induction false} JobEntriesSpec(jobId: string, ranked: seq<RankedOut>)
    ensures |JobEntries(jobId, ranked)| <= |ranked|
    ensures forall i :: 0 <= i < |JobEntries(jobId, ranked)| ==> JobEntries(jobId, ranked)[i].1.jobId == jobId
    ensures forall i :: 0 <= i < |JobEntries(jobId, ranked)| ==> JobEntries(jobId, ranked)[i].0 != ""
  {
    if ranked != [] {
      JobEntriesSpec(jobId, ranked[..|ranked| - 1]);
    }
  }

  /** The ranker: resumes, job text, job id and `top_k` to ranked entries, or the error it raises. */
  type Ranker = (seq<Fields>, string, string, int) -> Result<seq<RankedOut>, string>

  /** Whether a template is skipped: it has no id, or ranking it raises. */
  predicate Skipped(job: JobTemplate, ranker: Ranker, resumes: seq<Fields>, topK: int) {
    JobIdOf(job) == "" || ranker(resumes, JobTemplateToText(job), JobIdOf(job), topK).Err?
  }

  /** The entries a template contributes; a skipped template contributes none. */
  function Contribution(job: JobTemplate, ranker: Ranker, resumes: seq<Fields>, topK: int): (es: seq<Entry>)
    ensures Skipped(job, ranker, resumes, topK) ==> es == []
  {
    if Skipped(job, ranker, resumes, topK) then []
    else JobEntries(JobIdOf(job), ranker(resumes, JobTemplateToText(job), JobIdOf(job), topK).value)
  }

  function AllEntries(jobs: seq<JobTemplate>, ranker: Ranker, resumes: seq<Fields>, topK: int): seq<Entry> {
    if jobs == [] then []
    else AllEntries(jobs[..|jobs| - 1], ranker, resumes, topK) + Contribution(jobs[|jobs| - 1], ranker, resumes, topK)
  }

  function SkippedCount(jobs: seq<JobTemplate>, ranker: Ranker, resumes: seq<Fields>, topK: int): nat {
    if jobs == [] then 0
    else SkippedCount(jobs[..|jobs| - 1], ranker, resumes, topK) + (if Skipped(jobs[|jobs| - 1], ranker, resumes, topK) then 1 else 0)
  }

  /** No more templates are skipped than there are templates. */
  lemma {:induction false} SkippedCountBound(jobs: seq<JobTemplate>, ranker: Ranker, resumes: seq<Fields>, topK: int)
    ensures SkippedCount(jobs, ranker, resumes, topK) <= |jobs|
  {
    if jobs != [] {
      SkippedCountBound(jobs[..|jobs| - 1], ranker, resumes, topK);
    }
  }

  /** `candidate_recs`: the candidates in first-seen order and each one's recommendations. */
  datatype Groups = Groups(order: seq<string>, recs: map<string, seq<Rec>>)

  /** `candidate_recs.setdefault(c, []).append(rec)`. */
  function AddTo(g: Groups, e: Entry): Groups {
    if e.0 in g.recs then Groups(g.order, g.recs[e.0 := g.recs[e.0] + [e.1]])
    else Groups(g.order + [e.0], g.recs[e.0 := [e.1]])
  }

  function GroupOf(es: seq<Entry>): Groups {
    if es == [] then Groups([], map[]) else AddTo(GroupOf(es[..|es| - 1]), es[|es| - 1])
  }

  /** A candidate's recommendations among the entries, in encounter order. */
  function RecsOf(es: seq<Entry>, c: string): seq<Rec> {
    if es == [] then [] else RecsOf(es[..|es| - 1], c) + (if es[|es| - 1].0 == c then [es[|es| - 1].1] else [])
  }

  predicate HasCandidate(es: seq<Entry>, c: string) {
    exists i :: 0 <= i < |es| && es[i].0 == c
  }

  lemma {:induction false} RecsOfAbsent(es: seq<Entry>, c: string)
    requires !HasCandidate(es, c)
    ensures RecsOf(es, c) == []
  {
    if es != [] {
      var init := es[..|es| - 1];
      forall i | 0 <= i < |init| ensures init[i].0 != c {
        assert init[i] == es[i];
      }
      RecsOfAbsent(init, c);
      assert es[|es| - 1].0 != c;
    }
  }

  /**
   * The grouping holds exactly the candidates that occur, each once and in
   * first-seen order, and each with its recommendations in encounter order.
   */
  lemma {:induction false} GroupOfSpec(es: seq<Entry>)
    ensures forall c :: c in GroupOf(es).recs <==> HasCandidate(es, c)
    ensures forall c :: c in GroupOf(es).order <==> c in GroupOf(es).recs
    ensures forall i, j :: 0 <= i < j < |GroupOf(es).order| ==> GroupOf(es).order[i] != GroupOf(es).order[j]
    ensures forall c :: c in GroupOf(es).recs ==> GroupOf(es).recs[c] == RecsOf(es, c) && GroupOf(es).recs[c] != []
  {
    if es != [] {
      var init := es[..|es| - 1];
      var e := es[|es| - 1];
      GroupOfSpec(init);
      var g0 := GroupOf(init);
      forall c ensures HasCandidate(es, c) <==> HasCandidate(init, c) || e.0 == c {
        if HasCandidate(es, c) {
          var i :| 0 <= i < |es| && es[i].0 == c;
          if i < |init| { assert init[i] == es[i]; }
        }
        if HasCandidate(init, c) {
          var i :| 0 <= i < |init| && init[i].0 == c;
          assert es[i] == init[i];
        }
      }
      var g := GroupOf(es);
      assert g == AddTo(g0, e);
      forall c | c in g.recs ensures g.recs[c] == RecsOf(es, c) && g.recs[c] != [] {
        assert RecsOf(es, c) == RecsOf(init, c) + (if e.0 == c then [e.1] else []);
        if c == e.0 && e.0 !in g0.recs {
          RecsOfAbsent(init, c);
        }
      }
    }
  }

  lemma {:induction false} GroupOfSnoc(es: seq<Entry>, e: Entry)
    ensures GroupOf(es + [e]) == AddTo(GroupOf(es), e)
  {
    assert (es + [e])[..|es + [e]| - 1] == es;
  }

  lemma {:induction false} GroupOrderInRecs(es: seq<Entry>)
    ensures forall c :: c in GroupOf(es).order ==> c in GroupOf(es).recs
  {
    GroupOfSpec(es);
  }

  /** The number of distinct candidates equals the number of groups. */
  lemma {:induction false} ProcessedCountsCandidates(es: seq<Entry>)
    ensures |GroupOf(es).order| == |GroupOf(es).recs.Keys|
  {
    GroupOfSpec(es);
    var g := GroupOf(es);
    DistinctCard(g.order);
    forall c ensures c in (set c | c in g.order) <==> c in g.recs.Keys {
    }
    assert (set c | c in g.order) == g.recs.Keys;
  }

  lemma {:induction false} DistinctCard(s: seq<string>)
    requires forall i, j :: 0 <= i < j < |s| ==> s[i] != s[j]
    ensures |set c | c in s| == |s|
  {
    if s != [] {
      var init := s[..|s| - 1];
      DistinctCard(init);
      assert (set c | c in s) == (set c | c in init) + {s[|s| - 1]};
      assert s[|s| - 1] !in init;
    }
  }

  /** The sort key `(rank, -score)`. */
  function RecKey(r: Rec): (int, real) {
    (r.rank, -r.score)
  }

  /** A candidate's recommendations in upsert order: by rank ascending, then score descending. */
  function SortedRecs(recs: seq<Rec>): (r: seq<Rec>)
    ensures multiset(r) == multiset(recs)
    ensures |r| == |recs|
  {
    SortBy(recs, RecKey)
  }

  /** The order is by rank ascending, ties broken by higher score first, and the list is a permutation. */
  lemma {:induction false} SortedRecsSpec(recs: seq<Rec>)
    ensures multiset(SortedRecs(recs)) == multiset(recs)
    ensures forall i, j :: 0 <= i < j < |SortedRecs(recs)| ==>
      SortedRecs(recs)[i].rank < SortedRecs(recs)[j].rank
      || (SortedRecs(recs)[i].rank == SortedRecs(recs)[j].rank && SortedRecs(recs)[i].score >= SortedRecs(recs)[j].score)
  {
    SortBySorted(recs, RecKey);
  }

  /** A recommendation as the dict the payload carries. */
  function RecValue(r: Rec): Value {
    Dict([("job_id", Str(r.jobId)), ("score", Float(r.score)), ("rank", Int(r.rank))])
  }

  /** The error `+` raises when one operand of a string concatenation is not a string. */
  const NameTypeError := "TypeError"

  /**
   * `(v or "") + rest`: a falsy `v` counts as "", a string is prefixed, and
   * any other truthy value makes `+` raise.
   */
  function ConcatName(v: Value, rest: string): Result<string, string> {
    if !Truthy(v) then Ok(rest)
    else if v.Str? then Ok(v.s + rest)
    else Err(NameTypeError)
  }

  /**
   * `fullName or (firstName or "") + " " + (lastName or "")`, evaluated left
   * to right on the stored document.
   */
  function NameOf(doc: Fields): Result<Value, string> {
    var full := GetOrNull(doc, "fullName");
    if Truthy(full) then Ok(full)
    else
      match ConcatName(GetOrNull(doc, "firstName"), " ")
      case Err(e) => Err(e)
      case Ok(left) =>
        var last := GetOrNull(doc, "lastName");
        if !Truthy(last) then Ok(Str(left))
        else if last.Str? then Ok(Str(left + last.s))
        else Err(NameTypeError)
  }

  /** A value in a name field that `+` rejects: truthy and not a string. */
  predicate BadNamePart(v: Value) {
    Truthy(v) && !v.Str?
  }

  /** The text a name field contributes: its string when truthy, else "". */
  function NamePart(v: Value): string {
    if Truthy(v) && v.Str? then v.s else ""
  }

  /**
   * The name raises exactly when `fullName` is falsy and the first or last
   * name is truthy but not a string; otherwise it is a truthy `fullName` as
   * stored, or the two name texts around one space.
   */
  lemma {:induction false} NameOfSpec(doc: Fields)
    ensures var full := GetOrNull(doc, "fullName");
      NameOf(doc).Err? <==>
        !Truthy(full) && (BadNamePart(GetOrNull(doc, "firstName")) || BadNamePart(GetOrNull(doc, "lastName")))
    ensures Truthy(GetOrNull(doc, "fullName")) ==> NameOf(doc) == Ok(GetOrNull(doc, "fullName"))
    ensures NameOf(doc).Ok? && !Truthy(GetOrNull(doc, "fullName")) ==>
      NameOf(doc) == Ok(Str(NamePart(GetOrNull(doc, "firstName")) + " " + NamePart(GetOrNull(doc, "lastName"))))
  {
    var left := NamePart(GetOrNull(doc, "firstName")) + " ";
    assert "" + " " == " ";
    assert ConcatName(GetOrNull(doc, "firstName"), " ").Ok? ==> ConcatName(GetOrNull(doc, "firstName"), " ") == Ok(left);
    assert left + "" == left;
  }

  /** A looked-up document that is truthy: found and not empty. */
  predicate Present(doc: Option<Fields>) {
    doc.Some? && doc.value != []
  }

  /** `str(owner)` when the candidate document and its owner are truthy, else `None`. */
  function OwnerOf(candDoc: Option<Fields>, pyStr: Value -> string): Value {
    if Present(candDoc) && Truthy(GetOrNull(candDoc.value, "owner")) then Str(pyStr(GetOrNull(candDoc.value, "owner"))) else Null
  }

  /** Building the name of a truthy candidate document raises. */
  predicate NameRaises(candDoc: Option<Fields>) {
    Present(candDoc) && NameOf(candDoc.value).Err?
  }

  /** The candidate's name when the document is truthy, else `None` (used only where it does not raise). */
  function NameField(candDoc: Option<Fields>): Value {
    if Present(candDoc) && NameOf(candDoc.value).Ok? then NameOf(candDoc.value).value else Null
  }

  /** The recommendations as dicts, in the same order. */
  function RecValues(recs: seq<Rec>): (vs: seq<Value>)
    ensures |vs| == |recs|
    ensures forall i :: 0 <= i < |recs| ==> vs[i] == RecValue(recs[i])
  {
    if recs == [] then [] else RecValues(recs[..|recs| - 1]) + [RecValue(recs[|recs| - 1])]
  }

  function PayloadFields(c: string, owner: Value, name: Value, jobs: seq<Value>): Fields {
    [("candidate_id", Str(c)), ("owner", owner), ("name", name), ("recommended_jobs", List(jobs))]
  }

  lemma {:induction false} PayloadFieldsGet(c: string, owner: Value, name: Value, jobs: seq<Value>)
    ensures Get(PayloadFields(c, owner, name, jobs), "candidate_id") == Some(Str(c))
    ensures Get(PayloadFields(c, owner, name, jobs), "recommended_jobs") == Some(List(jobs))
  {
    var f := PayloadFields(c, owner, name, jobs);
    assert f[1..][1..][1..] == [("recommended_jobs", List(jobs))];
    assert Get(f, "recommended_jobs") == Get(f[1..][1..][1..], "recommended_jobs");
  }

  /** The payload built for one candidate. */
  datatype Payload = Payload(candidateId: string, owner: Value, name: Value, recommendedJobs: seq<Rec>)

  /** The payload as the dict handed to the store. */
  function PayloadValue(p: Payload): Value {
    Dict(PayloadFields(p.candidateId, p.owner, p.name, RecValues(p.recommendedJobs)))
  }

  /**
   * The payload upserted for one candidate; `candDoc` is what the store
   * returns for the candidate and `pyStr` stands for `str()`.
   */
  function PayloadFor(c: string, recs: seq<Rec>, candDoc: Option<Fields>, pyStr: Value -> string): Payload {
    Payload(c, OwnerOf(candDoc, pyStr), NameField(candDoc), SortedRecs(recs))
  }

  /** Lookups in a three-field document with distinct keys. */
  lemma {:induction false} GetOfThree(a: (string, Value), b: (string, Value), c: (string, Value))
    requires a.0 != b.0 && a.0 != c.0 && b.0 != c.0
    ensures Get([a, b, c], b.0) == Some(b.1) && Get([a, b, c], c.0) == Some(c.1)
  {
    assert [a, b, c][1..] == [b, c] && [b, c][1..] == [c];
  }

  /** Every recommendation dict passes the store's per-job normalisation. */
  lemma {:induction false} RecValueNormalizes(r: Rec, parseFloat: string -> Option<real>, parseInt: string -> Option<int>)
    ensures NormalizeJob(RecValue(r), parseFloat, parseInt).Ok?
  {
    assert |"job_id"| != |"score"| && |"job_id"| != |"rank"| && |"score"| != |"rank"|;
    GetOfThree(("job_id", Str(r.jobId)), ("score", Float(r.score)), ("rank", Int(r.rank)));
    var fs := RecValue(r).fields;
    assert ToFloat(Get(fs, "score").GetOr(Float(0.0)), parseFloat) == Ok(r.score);
    assert ToInt(Get(fs, "rank").GetOr(Int(0)), parseInt) == Ok(r.rank);
  }

  /** A dict whose jobs all normalise is accepted by the store. */
  lemma {:induction false} PlainPayloadAccepted(data: Fields, now: int, parseFloat: string -> Option<real>, parseInt: string -> Option<int>)
    requires RecommendedItems(data).Ok?
    requires forall i :: 0 <= i < |RecommendedItems(data).value| ==> NormalizeJob(RecommendedItems(data).value[i], parseFloat, parseInt).Ok?
    ensures var p := MongoService.PayloadOf(PlainInput(Dict(data)), now, parseFloat, parseInt);
      p.Ok? && p.value.candidate == OidOrNull(ToObjectId(GetOrNull(data, "candidate_id"))) && |p.value.jobs| == |RecommendedItems(data).value|
  {
    var items := RecommendedItems(data).value;
    assert NormalizeJobs(items, parseFloat, parseInt).Ok?;
  }

  lemma {:induction false} PayloadValueItems(p: Payload)
    ensures PayloadValue(p).Dict?
    ensures RecommendedItems(PayloadValue(p).fields) == Ok(RecValues(p.recommendedJobs))
  {
    var jobs := RecValues(p.recommendedJobs);
    PayloadFieldsGet(p.candidateId, p.owner, p.name, jobs);
    RecommendedItemsOfList(PayloadFields(p.candidateId, p.owner, p.name, jobs), jobs);
  }

  lemma {:induction false} PayloadValueCandidate(p: Payload)
    ensures PayloadValue(p).Dict?
    ensures GetOrNull(PayloadValue(p).fields, "candidate_id") == Str(p.candidateId)
  {
    PayloadFieldsGet(p.candidateId, p.owner, p.name, RecValues(p.recommendedJobs));
  }

  lemma {:induction false} RecommendedItemsOfList(data: Fields, items: seq<Value>)
    requires Get(data, "recommended_jobs") == Some(List(items))
    ensures RecommendedItems(data) == Ok(items)
  {
  }

  /** The store accepts every payload the service builds, for that candidate and with one job per recommendation. */
  lemma {:induction false} PayloadAccepted(p: Payload, now: int, parseFloat: string -> Option<real>, parseInt: string -> Option<int>)
    ensures var r := MongoService.PayloadOf(PlainInput(PayloadValue(p)), now, parseFloat, parseInt);
      r.Ok? && r.value.candidate == OidOrNull(ParseObjectId(p.candidateId)) && |r.value.jobs| == |p.recommendedJobs|
  {
    var items := RecValues(p.recommendedJobs);
    PayloadValueItems(p);
    PayloadValueCandidate(p);
    forall i | 0 <= i < |items| ensures NormalizeJob(items[i], parseFloat, parseInt).Ok? {
      RecValueNormalizes(p.recommendedJobs[i], parseFloat, parseInt);
    }
    PlainPayloadAccepted(PayloadValue(p).fields, now, parseFloat, parseInt);
  }

  /** A candidate's collected recommendations (none when absent). */
  function RecsFor(recs: map<string, seq<Rec>>, c: string): seq<Rec> {
    if c in recs then recs[c] else []
  }

  /** The payloads for the candidates in `order`, in that order; `candidates` is the candidate collection. */
  function Payloads(order: seq<string>, recs: map<string, seq<Rec>>, candidates: seq<Fields>, pyStr: Value -> string): seq<Payload> {
    if order == [] then []
    else
      var c := order[|order| - 1];
      Payloads(order[..|order| - 1], recs, candidates, pyStr) + [PayloadFor(c, RecsFor(recs, c), LookupById(candidates, c), pyStr)]
  }

  lemma {:induction false} PayloadsLength(order: seq<string>, recs: map<string, seq<Rec>>, candidates: seq<Fields>, pyStr: Value -> string)
    ensures |Payloads(order, recs, candidates, pyStr)| == |order|
  {
    if order != [] {
      PayloadsLength(order[..|order| - 1], recs, candidates, pyStr);
    }
  }

  lemma {:induction false} PayloadsAt(order: seq<string>, recs: map<string, seq<Rec>>, candidates: seq<Fields>, pyStr: Value -> string, i: nat)
    requires i < |order|
    ensures |Payloads(order, recs, candidates, pyStr)| == |order|
    ensures Payloads(order, recs, candidates, pyStr)[i] == PayloadFor(order[i], RecsFor(recs, order[i]), LookupById(candidates, order[i]), pyStr)
  {
    PayloadsLength(order, recs, candidates, pyStr);
    if i < |order| - 1 {
      PayloadsEarlier(order, recs, candidates, pyStr, i);
      PayloadsAt(order[..|order| - 1], recs, candidates, pyStr, i);
    }
  }

  /** An earlier payload is the payload of the shorter order. */
  lemma {:induction false} PayloadsEarlier(order: seq<string>, recs: map<string, seq<Rec>>, candidates: seq<Fields>, pyStr: Value -> string, i: nat)
    requires i < |order| - 1
    ensures |Payloads(order[..|order| - 1], recs, candidates, pyStr)| == |order| - 1
    ensures order[..|order| - 1][i] == order[i]
    ensures Payloads(order, recs, candidates, pyStr)[i] == Payloads(order[..|order| - 1], recs, candidates, pyStr)[i]
  {
    PayloadsLength(order[..|order| - 1], recs, candidates, pyStr);
  }

  /** One payload per candidate, each built from that candidate's recommendations and stored document. */
  lemma {:induction false} PayloadsSpec(order: seq<string>, recs: map<string, seq<Rec>>, candidates: seq<Fields>, pyStr: Value -> string)
    ensures |Payloads(order, recs, candidates, pyStr)| == |order|
    ensures forall i :: 0 <= i < |order| ==>
      Payloads(order, recs, candidates, pyStr)[i] == PayloadFor(order[i], RecsFor(recs, order[i]), LookupById(candidates, order[i]), pyStr)
  {
    PayloadsLength(order, recs, candidates, pyStr);
    forall i | 0 <= i < |order|
      ensures Payloads(order, recs, candidates, pyStr)[i] == PayloadFor(order[i], RecsFor(recs, order[i]), LookupById(candidates, order[i]), pyStr)
    {
      PayloadsAt(order, recs, candidates, pyStr, i);
    }
  }

  /** Building the name of candidate `c`, looked up in `candidates`, raises. */
  predicate RaisesFor(candidates: seq<Fields>, c: string) {
    NameRaises(LookupById(candidates, c))
  }

  /** `RaisesFor` over one candidate collection, as a test on candidate ids. */
  function RaisesIn(candidates: seq<Fields>): string -> bool {
    c => RaisesFor(candidates, c)
  }

  /**
   * How many candidates of `order` step 3 gets through: the position of the
   * first one for which building the name `raises`, else all of them.
   */
  function UpsertReach(order: seq<string>, raises: string -> bool): (k: nat)
    ensures k <= |order|
  {
    if order == [] then 0
    else
      var k0 := UpsertReach(order[..|order| - 1], raises);
      if k0 < |order| - 1 || raises(order[|order| - 1]) then k0 else |order|
  }

  /** Every candidate before the reach gets a name; the one at the reach, if any, raises. */
  lemma {:induction false} UpsertReachSpec(order: seq<string>, raises: string -> bool)
    ensures forall i :: 0 <= i < UpsertReach(order, raises) ==> !raises(order[i])
    ensures UpsertReach(order, raises) < |order| ==> raises(order[UpsertReach(order, raises)])
  {
    if order != [] {
      var init := order[..|order| - 1];
      UpsertReachSpec(init, raises);
      forall i | 0 <= i < UpsertReach(order, raises) ensures !raises(order[i]) {
        if i < |init| {
          assert init[i] == order[i];
        }
      }
      if UpsertReach(order, raises) < |init| {
        assert init[UpsertReach(order, raises)] == order[UpsertReach(order, raises)];
      }
    }
  }

  /** The number of candidates whose upsert went through. */
  function AcceptedCount(order: seq<string>, dbFails: string -> bool): (n: nat)
    ensures n <= |order|
  {
    if order == [] then 0 else AcceptedCount(order[..|order| - 1], dbFails) + (if dbFails(order[|order| - 1]) then 0 else 1)
  }

  /** One more candidate adds its payload and, when its upsert goes through, one to the count. */
  lemma {:induction false} UpsertStep(order: seq<string>, i: nat, recs: map<string, seq<Rec>>, candidates: seq<Fields>, pyStr: Value -> string,
                   dbFails: string -> bool)
    requires i < |order|
    ensures Payloads(order[..i + 1], recs, candidates, pyStr)
         == Payloads(order[..i], recs, candidates, pyStr) + [PayloadFor(order[i], RecsFor(recs, order[i]), LookupById(candidates, order[i]), pyStr)]
    ensures AcceptedCount(order[..i + 1], dbFails) == AcceptedCount(order[..i], dbFails) + (if dbFails(order[i]) then 0 else 1)
  {
    assert order[..i + 1][..i] == order[..i];
  }

  /** Where step 3 stands: whether it has raised, the upserts counted, the payloads built. */
  datatype UpsertOutcome = UpsertOutcome(raised: bool, upserted: nat, payloads: seq<Payload>)

  /**
   * Step 3 on one more candidate `c`: nothing more once it has raised; a
   * name that raises ends it; otherwise the payload is built and the upsert
   * counts unless the database call fails.
   */
  function NextOutcome(prev: UpsertOutcome, c: string, recs: map<string, seq<Rec>>, candidates: seq<Fields>,
                       pyStr: Value -> string, dbFails: string -> bool): UpsertOutcome {
    if prev.raised then prev
    else if RaisesFor(candidates, c) then UpsertOutcome(true, prev.upserted, prev.payloads)
    else UpsertOutcome(false, prev.upserted + (if dbFails(c) then 0 else 1),
                       prev.payloads + [PayloadFor(c, RecsFor(recs, c), LookupById(candidates, c), pyStr)])
  }

  /** Step 3 over the candidates of `order`, in that order. */
  function UpsertRun(order: seq<string>, recs: map<string, seq<Rec>>, candidates: seq<Fields>,
                     pyStr: Value -> string, dbFails: string -> bool): UpsertOutcome {
    if order == [] then UpsertOutcome(false, 0, [])
    else NextOutcome(UpsertRun(order[..|order| - 1], recs, candidates, pyStr, dbFails), order[|order| - 1], recs, candidates, pyStr, dbFails)
  }

  lemma {:induction false} UpsertRunStep(order: seq<string>, i: nat, recs: map<string, seq<Rec>>, candidates: seq<Fields>,
                                         pyStr: Value -> string, dbFails: string -> bool)
    requires i < |order|
    ensures UpsertRun(order[..i + 1], recs, candidates, pyStr, dbFails)
         == NextOutcome(UpsertRun(order[..i], recs, candidates, pyStr, dbFails), order[i], recs, candidates, pyStr, dbFails)
  {
    assert order[..i + 1][..i] == order[..i];
  }

  /** Once step 3 has raised, the later candidates change nothing. */
  lemma {:induction false} UpsertRunRaisedStays(order: seq<string>, j: nat, recs: map<string, seq<Rec>>, candidates: seq<Fields>,
                                                pyStr: Value -> string, dbFails: string -> bool)
    requires j <= |order| && UpsertRun(order[..j], recs, candidates, pyStr, dbFails).raised
    ensures UpsertRun(order, recs, candidates, pyStr, dbFails) == UpsertRun(order[..j], recs, candidates, pyStr, dbFails)
  {
    if j < |order| {
      var init := order[..|order| - 1];
      assert init[..j] == order[..j];
      UpsertRunRaisedStays(init, j, recs, candidates, pyStr, dbFails);
    } else {
      assert order[..j] == order;
    }
  }

  /**
   * Step 3 raises exactly when some candidate's name raises; it upserts the
   * candidates before the first such one, and only those: their payloads,
   * and the count of those whose database call goes through.
   */
  lemma {:induction false} UpsertRunSpec(order: seq<string>, recs: map<string, seq<Rec>>, candidates: seq<Fields>,
                                         pyStr: Value -> string, dbFails: string -> bool)
    ensures var k := UpsertReach(order, RaisesIn(candidates));
      UpsertRun(order, recs, candidates, pyStr, dbFails)
        == UpsertOutcome(k < |order|, AcceptedCount(order[..k], dbFails), Payloads(order[..k], recs, candidates, pyStr))
  {
    if order != [] {
      var init := order[..|order| - 1];
      var c := order[|order| - 1];
      UpsertRunSpec(init, recs, candidates, pyStr, dbFails);
      var k0 := UpsertReach(init, RaisesIn(candidates));
      assert RaisesIn(candidates)(c) == RaisesFor(candidates, c);
      if k0 < |init| {
        assert order[..k0] == init[..k0];
      } else {
        assert init[..k0] == init;
        assert order[..|order|] == order;
        assert order[..|init|] == init;
      }
    }
  }

  /** The summary `rank_all_jobs_and_upsert` returns. */
  datatype Summary = Summary(upserted: nat, skippedJobs: nat, processedCandidates: nat)

  /** The upserted count never exceeds the processed candidates, nor the skipped count the templates. */
  lemma {:induction false} SummaryBounds(jobs: seq<JobTemplate>, ranker: Ranker, resumes: seq<Fields>, topK: int, dbFails: string -> bool)
    ensures var g := GroupOf(AllEntries(jobs, ranker, resumes, topK));
      AcceptedCount(g.order, dbFails) <= |g.order| && SkippedCount(jobs, ranker, resumes, topK) <= |jobs|
  {
    SkippedCountBound(jobs, ranker, resumes, topK);
  }

  /** One more ranked entry appends its entry, if any, to the collected ones. */
  lemma {:induction false} CollectJobStep(prior: seq<Entry>, jobId: string, ranked: seq<RankedOut>, k: nat)
    requires k < |ranked|
    ensures var before := prior + JobEntries(jobId, ranked[..k]);
      prior + JobEntries(jobId, ranked[..k + 1]) == before + EntryOf(jobId, ranked[k])
    ensures EntryOf(jobId, ranked[k]) == [] ==> prior + JobEntries(jobId, ranked[..k + 1]) == prior + JobEntries(jobId, ranked[..k])
  {
    assert ranked[..k + 1][..k] == ranked[..k];
    var done := JobEntries(jobId, ranked[..k]);
    assert prior + (done + EntryOf(jobId, ranked[k])) == (prior + done) + EntryOf(jobId, ranked[k]);
    assert (prior + done) + [] == prior + done;
  }

  /** The inner loop over one job's ranked entries, adding each to the candidates' lists. */
  method CollectJob(g0: Groups, prior: seq<Entry>, jobId: string, ranked: seq<RankedOut>) returns (g: Groups)
    requires g0 == GroupOf(prior)
    ensures g == GroupOf(prior + JobEntries(jobId, ranked))
  {
    g := g0;
    var k := 0;
    assert ranked[..0] == [];
    assert prior + [] == prior;
    while k < |ranked|
      invariant 0 <= k <= |ranked|
      invariant g == GroupOf(prior + JobEntries(jobId, ranked[..k]))
    {
      var rr := ranked[k];
      CollectJobStep(prior, jobId, ranked, k);
      if Given(rr.candidateId) && rr.recommendedJobs != [] {
        var e := (rr.candidateId.value, Rec(jobId, rr.recommendedJobs[0].score, rr.recommendedJobs[0].rank));
        GroupOfSnoc(prior + JobEntries(jobId, ranked[..k]), e);
        g := AddTo(g, e);
      }
      k := k + 1;
    }
    assert ranked[..k] == ranked;
  }

  /** One more template adds its contribution and, when skipped, one to the count. */
  lemma {:induction false} CollectStep(jobs: seq<JobTemplate>, j: nat, ranker: Ranker, resumes: seq<Fields>, topK: int)
    requires j < |jobs|
    ensures AllEntries(jobs[..j + 1], ranker, resumes, topK)
         == AllEntries(jobs[..j], ranker, resumes, topK) + Contribution(jobs[j], ranker, resumes, topK)
    ensures SkippedCount(jobs[..j + 1], ranker, resumes, topK)
         == SkippedCount(jobs[..j], ranker, resumes, topK) + (if Skipped(jobs[j], ranker, resumes, topK) then 1 else 0)
  {
    assert jobs[..j + 1][..j] == jobs[..j];
  }

  /** One template of steps 1 and 2: skip it, or rank it and collect its entries. */
  method CollectTemplate(g0: Groups, prior: seq<Entry>, job: JobTemplate, ranker: Ranker, resumes: seq<Fields>, topK: int)
    returns (g: Groups, skippedHere: bool)
    requires g0 == GroupOf(prior)
    ensures g == GroupOf(prior + Contribution(job, ranker, resumes, topK))
    ensures skippedHere == Skipped(job, ranker, resumes, topK)
  {
    var jobText := JobTemplateToText(job);
    var jobId := JobIdOf(job);
    g := g0;
    skippedHere := true;
    assert prior + [] == prior;
    if jobId != "" {
      var ranked := ranker(resumes, jobText, jobId, topK);
      if ranked.Ok? {
        skippedHere := false;
        g := CollectJob(g0, prior, jobId, ranked.value);
      }
    }
  }

  /** Steps 1 and 2: rank every template and collect the recommendations. */
  method CollectRecommendations(jobs: seq<JobTemplate>, ranker: Ranker, resumes: seq<Fields>, topK: int)
    returns (g: Groups, skipped: nat)
    ensures g == GroupOf(AllEntries(jobs, ranker, resumes, topK))
    ensures skipped == SkippedCount(jobs, ranker, resumes, topK)
  {
    g := Groups([], map[]);
    skipped := 0;
    var j := 0;
    while j < |jobs|
      invariant 0 <= j <= |jobs|
      invariant g == GroupOf(AllEntries(jobs[..j], ranker, resumes, topK))
      invariant skipped == SkippedCount(jobs[..j], ranker, resumes, topK)
    {
      CollectStep(jobs, j, ranker, resumes, topK);
      var skippedHere;
      g, skippedHere := CollectTemplate(g, AllEntries(jobs[..j], ranker, resumes, topK), jobs[j], ranker, resumes, topK);
      if skippedHere {
        skipped := skipped + 1;
      }
      j := j + 1;
    }
    assert jobs[..j] == jobs;
  }

  /** Two stores that agree except on the recommendations agree on every other collection. */
  lemma {:induction false} SameOutside(a: map<string, seq<Fields>>, b: map<string, seq<Fields>>, n: string)
    requires a - {Recommendations} == b - {Recommendations}
    requires n != Recommendations
    ensures (n in a) == (n in b)
    ensures n in a ==> a[n] == b[n]
  {
    assert n in a <==> n in a - {Recommendations};
    assert n in b <==> n in b - {Recommendations};
    if n in a {
      assert a[n] == (a - {Recommendations})[n];
      assert b[n] == (b - {Recommendations})[n];
    }
  }

  lemma {:induction false} UpdateOutside(m: map<string, seq<Fields>>, docs: seq<Fields>)
    ensures m[Recommendations := docs] - {Recommendations} == m - {Recommendations}
  {
    var l := m[Recommendations := docs] - {Recommendations};
    var r := m - {Recommendations};
    forall n ensures n in l <==> n in r {
    }
    forall n | n in l ensures l[n] == r[n] {
    }
  }

  class MultiJobRankingService {
    const mongo: MongoService
    const topKPerJob: int

    constructor(mongo: MongoService, topKPerJob: int)
      ensures this.mongo == mongo && this.topKPerJob == topKPerJob
    {
      this.mongo := mongo;
      this.topKPerJob := topKPerJob;
    }

    /** `_load_and_validate_resumes`: the candidate documents that validate, in the store's order. */
    method LoadAndValidateResumes(matches: Fields -> bool, validResume: Fields -> bool) returns (resumes: seq<Fields>)
      ensures resumes == Keep(mongo.GetAll(Candidates, matches, 0), validResume)
    {
      var raw := mongo.GetAll(Candidates, matches, 0);
      resumes := [];
      var i := 0;
      while i < |raw|
        invariant 0 <= i <= |raw|
        invariant resumes == Keep(raw[..i], validResume)
      {
        KeepAppend(raw, validResume, i);
        if validResume(raw[i]) {
          resumes := resumes + [raw[i]];
        }
        i := i + 1;
      }
      assert raw[..i] == raw;
    }

    /**
     * The body of step 3 for one candidate: look the candidate up, build
     * the payload and upsert it. Building the name raises, before any
     * write, when the document's name fields cannot be concatenated. The
     * upsert counts when it returns a truthy document, which is exactly when
     * the database call does not raise.
     */
    method UpsertCandidate(c: string, recs: seq<Rec>, now: int, freshId: ObjectId, dbFails: bool, pyStr: Value -> string,
                           parseFloat: string -> Option<real>, parseInt: string -> Option<int>)
      returns (raised: bool, counted: bool, payload: Payload)
      modifies mongo
      ensures raised == RaisesFor(old(mongo.Docs(Candidates)), c)
      ensures raised ==> !counted && mongo.collections == old(mongo.collections)
      ensures !raised ==> payload == PayloadFor(c, recs, LookupById(old(mongo.Docs(Candidates)), c), pyStr)
      ensures !raised ==> counted == !dbFails
      ensures dbFails ==> mongo.collections == old(mongo.collections)
      ensures mongo.collections - {Recommendations} == old(mongo.collections) - {Recommendations}
      ensures !raised && !dbFails ==> FindCandidate(mongo.Docs(Recommendations), OidOrNull(ParseObjectId(c))).Some?
    {
      var candDoc := mongo.GetResumeById(c);
      payload := PayloadFor(c, recs, candDoc, pyStr);
      if NameRaises(candDoc) {
        return true, false, payload;
      }
      raised := false;
      PayloadAccepted(payload, now, parseFloat, parseInt);
      ghost var before := mongo.Docs(Recommendations);
      var res := mongo.UpsertRankedResumeOut(PlainInput(PayloadValue(payload)), now, freshId, dbFails, parseFloat, parseInt);
      if res.Ok? {
        var p := MongoService.PayloadOf(PlainInput(PayloadValue(payload)), now, parseFloat, parseInt).value;
        ApplyUpsertSpec(before, p, now, freshId);
        UpsertedIsFound(before, p, now, freshId);
        UpdateOutside(old(mongo.collections), ApplyUpsert(before, p, now, freshId).0);
        var doc := ApplyUpsert(before, p, now, freshId).1;
        assert HasKey(doc, "candidate_id");
        assert Keys(res.value) == Keys(doc);
      }
      counted := res.Ok? && res.value != [];
    }

    /** One pass of step 3's loop: `UpsertCandidate` on the `i`-th candidate, with the facts the loop needs. */
    method UpsertNext(g: Groups, i: nat, ghost cands: seq<Fields>, now: int, freshId: string -> ObjectId, dbFails: string -> bool,
                      pyStr: Value -> string, parseFloat: string -> Option<real>, parseInt: string -> Option<int>)
      returns (stop: bool, counted: bool, payload: Payload)
      requires i < |g.order| && g.order[i] in g.recs && mongo.Docs(Candidates) == cands
      modifies mongo
      ensures stop == RaisesFor(cands, g.order[i])
      ensures !stop ==> counted == !dbFails(g.order[i])
      ensures !stop ==> payload == PayloadFor(g.order[i], RecsFor(g.recs, g.order[i]), LookupById(cands, g.order[i]), pyStr)
      ensures mongo.collections - {Recommendations} == old(mongo.collections) - {Recommendations}
    {
      var c := g.order[i];
      stop, counted, payload := UpsertCandidate(c, g.recs[c], now, freshId(c), dbFails(c), pyStr, parseFloat, parseInt);
    }

    /**
     * Step 3: one upsert per candidate in first-seen order; `freshId` and
     * `dbFails` give each candidate's insert id and whether its database
     * call raises. A candidate whose name raises ends the loop with that
     * error, after the upserts of the candidates before it.
     */
    method UpsertAll(g: Groups, now: int, freshId: string -> ObjectId, dbFails: string -> bool, pyStr: Value -> string,
                     parseFloat: string -> Option<real>, parseInt: string -> Option<int>)
      returns (raised: bool, upserted: nat, payloads: seq<Payload>)
      requires forall c :: c in g.order ==> c in g.recs
      modifies mongo
      ensures UpsertOutcome(raised, upserted, payloads) == UpsertRun(g.order, g.recs, old(mongo.Docs(Candidates)), pyStr, dbFails)
      ensures mongo.collections - {Recommendations} == old(mongo.collections) - {Recommendations}
    {
      ghost var cands := old(mongo.Docs(Candidates));
      upserted := 0;
      payloads := [];
      raised := false;
      var i := 0;
      while i < |g.order|
        invariant 0 <= i <= |g.order| && !raised
        invariant UpsertOutcome(raised, upserted, payloads) == UpsertRun(g.order[..i], g.recs, cands, pyStr, dbFails)
        invariant mongo.collections - {Recommendations} == old(mongo.collections) - {Recommendations}
      {
        SameOutside(mongo.collections, old(mongo.collections), Candidates);
        var stop, counted, payload := UpsertNext(g, i, cands, now, freshId, dbFails, pyStr, parseFloat, parseInt);
        UpsertRunStep(g.order, i, g.recs, cands, pyStr, dbFails);
        if stop {
          raised := true;
          UpsertRunRaisedStays(g.order, i + 1, g.recs, cands, pyStr, dbFails);
          return;
        }
        if counted {
          upserted := upserted + 1;
        }
        payloads := payloads + [payload];
        i := i + 1;
      }
      assert g.order[..i] == g.order;
    }

    /**
     * `rank_all_jobs_and_upsert`. `matches` is the candidate filter,
     * `validResume` the resume model's validation, `now` the time of the
     * upserts.
     */
    method RankAllJobsAndUpsert(jobs: seq<JobTemplate>, matches: Fields -> bool, topKArgument: Option<int>,
                                validResume: Fields -> bool, ranker: Ranker,
                                now: int, freshId: string -> ObjectId, dbFails: string -> bool, pyStr: Value -> string,
                                parseFloat: string -> Option<real>, parseInt: string -> Option<int>)
      returns (summary: Result<Summary, string>, payloads: seq<Payload>)
      modifies mongo
      ensures var resumes := Keep(old(mongo.GetAll(Candidates, matches, 0)), validResume);
        && (resumes == [] ==> summary == Ok(Summary(0, 0, 0)) && payloads == [] && mongo.collections == old(mongo.collections))
        && (resumes != [] ==>
              var topK := EffectiveTopK(topKPerJob, topKArgument);
              var g := GroupOf(AllEntries(jobs, ranker, resumes, topK));
              var k := UpsertReach(g.order, RaisesIn(old(mongo.Docs(Candidates))));
              && payloads == Payloads(g.order[..k], g.recs, old(mongo.Docs(Candidates)), pyStr)
              && (k < |g.order| ==> summary == Err(NameTypeError))
              && (k == |g.order| ==> summary == Ok(Summary(AcceptedCount(g.order, dbFails),
                                                           SkippedCount(jobs, ranker, resumes, topK), |g.order|))))
      ensures forall n :: n != Recommendations ==> mongo.Docs(n) == old(mongo.Docs(n))
    {
      var topK := EffectiveTopK(topKPerJob, topKArgument);
      var resumes := LoadAndValidateResumes(matches, validResume);
      if resumes == [] {
        return Ok(Summary(0, 0, 0)), [];
      }
      var g, skipped := CollectRecommendations(jobs, ranker, resumes, topK);
      GroupOrderInRecs(AllEntries(jobs, ranker, resumes, topK));
      var raised, upserted;
      raised, upserted, payloads := UpsertAll(g, now, freshId, dbFails, pyStr, parseFloat, parseInt);
      UpsertRunSpec(g.order, g.recs, old(mongo.Docs(Candidates)), pyStr, dbFails);
      forall n | n != Recommendations ensures mongo.Docs(n) == old(mongo.Docs(n)) {
        SameOutside(mongo.collections, old(mongo.collections), n);
      }
      if raised {
        return Err(NameTypeError), payloads;
      }
      assert g.order[..|g.order|] == g.order;
      summary := Ok(Summary(upserted, skipped, |g.order|));
    }
  }
}
