/**
 * `InterviewManager` of `app/services/Interview_manager.py`: the lookup of a
 * scheduled interview by candidate key, the normalisation of interview times
 * and documents, the template heuristic, and the guard chain that ends in a
 * dispatch token for the interviewer agent.
 */
module InterviewManager {
  import opened Wrappers
  import opened Clock
  import opened Text
  import opened Documents
  import opened MongoService
  import opened PromptBuilder

  const InterviewKeys: string := "interview_keys"

  /** An `HTTPException`: its status code and detail text. */
  datatype Refusal = Refusal(status: int, detail: string)

  // ---------------------------------------------------------------------------
  // Document normalisation
  // ---------------------------------------------------------------------------

  /**
   * `convert` inside `_normalize_doc_to_str`: an ObjectId becomes its text, a
   * value of an unknown type becomes its `str()` text, dicts and lists at any
   * depth are converted element by element, and every other value is kept.
   */
  function NormalizeValue(v: Value): (r: Value)
    ensures v.Dict? <==> r.Dict?
    ensures v.Dict? ==> Keys(r.fields) == Keys(v.fields)
    ensures v.List? <==> r.List?
    ensures v.List? ==> |r.items| == |v.items|
    ensures v.Oid? ==> r == Str(v.oid.hex)
    ensures v.Other? ==> r == Str(v.repr)
    ensures v.Null? || v.Bool? || v.Int? || v.Float? || v.Str? || v.Date? ==> r == v
    decreases v
  {
    match v
    case Oid(o) => Str(o.hex)
    case Other(text) => Str(text)
    case Dict(fs) => Dict(seq(|fs|, i requires 0 <= i < |fs| => (fs[i].0, NormalizeValue(fs[i].1))))
    case List(xs) => List(seq(|xs|, j requires 0 <= j < |xs| => NormalizeValue(xs[j])))
    case _ => v
  }

  /** No ObjectId and no value of an unknown type is left anywhere inside. */
  ghost predicate Normalized(v: Value)
    decreases v
  {
    match v
    case Oid(_) => false
    case Other(_) => false
    case Dict(fs) => forall i :: 0 <= i < |fs| ==> Normalized(fs[i].1)
    case List(xs) => forall j :: 0 <= j < |xs| ==> Normalized(xs[j])
    case _ => true
  }

  /** The conversion leaves nothing to convert, and it keeps a converted value as it is. */
  lemma {:induction false} NormalizeValueSpec(v: Value)
    ensures Normalized(NormalizeValue(v))
    ensures Normalized(v) ==> NormalizeValue(v) == v
    decreases v
  {
    match v
    case Dict(fs) =>
      forall i | 0 <= i < |fs|
        ensures Normalized(NormalizeValue(fs[i].1)) && (Normalized(fs[i].1) ==> NormalizeValue(fs[i].1) == fs[i].1)
      {
        NormalizeValueSpec(fs[i].1);
      }
      if Normalized(v) {
        assert NormalizeValue(v).fields == fs;
      }
    case List(xs) =>
      forall j | 0 <= j < |xs|
        ensures Normalized(NormalizeValue(xs[j])) && (Normalized(xs[j]) ==> NormalizeValue(xs[j]) == xs[j])
      {
        NormalizeValueSpec(xs[j]);
      }
      if Normalized(v) {
        assert NormalizeValue(v).items == xs;
      }
    case _ =>
  }

  /** Converting twice is converting once. */
  lemma {:induction false} NormalizeIdempotent(v: Value)
    ensures NormalizeValue(NormalizeValue(v)) == NormalizeValue(v)
  {
    NormalizeValueSpec(v);
    NormalizeValueSpec(NormalizeValue(v));
  }

  /**
   * Converting a document the store has already serialised gives what
   * converting the raw document gives: the store's conversion does less, never
   * something else.
   */
  lemma {:induction false} NormalizeAfterSerialize(v: Value)
    ensures NormalizeValue(SerializeValue(v)) == NormalizeValue(v)
    decreases v
  {
    match v
    case Dict(fs) =>
      forall i | 0 <= i < |fs| ensures NormalizeValue(SerializeValue(fs[i].1)) == NormalizeValue(fs[i].1) {
        NormalizeAfterSerialize(fs[i].1);
      }
      assert NormalizeValue(SerializeValue(v)).fields == NormalizeValue(v).fields;
    case List(xs) =>
      forall j | 0 <= j < |xs| && (xs[j].Oid? || xs[j].Dict?) ensures NormalizeValue(SerializeValue(xs[j])) == NormalizeValue(xs[j]) {
        NormalizeAfterSerialize(xs[j]);
      }
      assert NormalizeValue(SerializeValue(v)).items == NormalizeValue(v).items;
    case _ =>
  }

  /** Unlike the store's conversion, this one reaches an ObjectId inside a list inside a list. */
  lemma {:induction false} NormalizeReachesNestedLists(o: ObjectId)
    ensures NormalizeValue(Dict([("k", List([List([Oid(o)])]))])) == Dict([("k", List([List([Str(o.hex)])]))])
    ensures NormalizeValue(Dict([("k", List([List([Oid(o)])]))])) != SerializeValue(Dict([("k", List([List([Oid(o)])]))]))
  {
    var inner := List([List([Oid(o)])]);
    assert NormalizeValue(List([Oid(o)])).items == [Str(o.hex)];
    assert NormalizeValue(inner).items == [List([Str(o.hex)])];
    var fs := [("k", inner)];
    assert NormalizeValue(Dict(fs)).fields == [("k", List([List([Str(o.hex)])]))];
    NestedListKeepsObjectId(o);
  }

  /** `_normalize_doc_to_str`: `None` stays `None`; a document keeps its keys and has each value converted. */
  function NormalizeDocToStr(doc: Option<Fields>): (r: Option<Fields>)
    ensures r.None? <==> doc.None?
    ensures doc.Some? ==> Keys(r.value) == Keys(doc.value)
    ensures doc.Some? ==> forall i :: 0 <= i < |doc.value| ==> r.value[i].1 == NormalizeValue(doc.value[i].1)
  {
    if doc.None? then None else Some(NormalizeValue(Dict(doc.value)).fields)
  }

  // ---------------------------------------------------------------------------
  // Interview time
  // ---------------------------------------------------------------------------

  /**
   * `_parse_interview_time`: a datetime, or ISO text read by `isoParse` (which
   * stands for `dateutil`'s `isoparse` with `fromisoformat` as fallback, and
   * gives nothing when both raise), expressed in UTC with a naive reading taken
   * as UTC; anything else gives nothing.
   */
  function ParseInterviewTime(raw: Value, isoParse: string -> Option<DateTime>): (r: Option<DateTime>)
    ensures r.Some? ==> r.value.offset == Some(0)
    ensures raw.Date? ==> r.Some? && UtcInstant(r.value) == UtcInstant(raw.dt)
    ensures raw.Date? && raw.dt.IsNaive() ==> r.value.wall == raw.dt.wall
    ensures raw.Str? ==> (r.Some? <==> isoParse(raw.s).Some?)
    ensures raw.Str? && r.Some? ==> UtcInstant(r.value) == UtcInstant(isoParse(raw.s).value)
    ensures !raw.Date? && !raw.Str? ==> r.None?
  {
    match raw
    case Date(dt) => Some(AsUtc(dt))
    case Str(text) =>
      var parsed := isoParse(text);
      if parsed.Some? then Some(AsUtc(parsed.value)) else None
    case _ => None
  }

  /** Whether a parsed interview time lies strictly after `now`, the UTC instant of the request. */
  predicate TooEarly(parsed: Option<DateTime>, now: int) {
    parsed.Some? && UtcInstant(parsed.value) > now
  }

  function EarlyDetail(t: DateTime, isoFormat: DateTime -> string): string {
    "Interview scheduled for " + isoFormat(t) + " (UTC). It is not yet time to start."
  }

  // ---------------------------------------------------------------------------
  // Template choice
  // ---------------------------------------------------------------------------

  /** The interview template and the evaluation template. */
  datatype Templates = Templates(interviewTemplate: string, evaluationTemplate: string)

  const General: Templates := Templates("general", "standard_evaluation_v1")
  const Senior: Templates := Templates("senior", "senior_evaluation_v1")

  /** The resume's experience: `totalExperienceYears`, or `totalExperience` when that is not truthy. */
  function ResumeExperience(resume: Fields): Value {
    Or(GetOrNull(resume, "totalExperienceYears"), GetOrNull(resume, "totalExperience"))
  }

  /** The level read from the job's nested `jobDescription` dict: `experienceLevel`, else `employmentType`. */
  function JdLevel(job: Fields): Value {
    var jd := if job != [] then GetOrNull(job, "jobDescription") else Null;
    if Truthy(jd) && jd.Dict? then Or(GetOrNull(jd.fields, "experienceLevel"), GetOrNull(jd.fields, "employmentType"))
    else Null
  }

  /** A truthy experience that `float()` accepts and that is at least 5. */
  predicate SeniorByExperience(resume: Fields, parseFloat: string -> Option<real>) {
    var exp := ResumeExperience(resume);
    Truthy(exp) && ToFloat(exp, parseFloat).Ok? && ToFloat(exp, parseFloat).value >= 5.0
  }

  /** A level that is non-empty text containing "senior" in any letter case. */
  predicate SeniorByLevel(job: Fields) {
    var level := JdLevel(job);
    level.Str? && level.s != "" && Contains(Lower(level.s), "senior")
  }

  /**
   * `_pick_templates`: the general templates, replaced by the senior ones
   * when the experience reaches 5 years and again when the level says senior.
   * `float()` failing is caught, so it leaves the choice as it was.
   */
  function PickTemplates(resume: Fields, job: Fields, parseFloat: string -> Option<real>): (r: Templates)
    ensures r == Senior <==> SeniorByExperience(resume, parseFloat) || SeniorByLevel(job)
    ensures r == General <==> !(SeniorByExperience(resume, parseFloat) || SeniorByLevel(job))
  {
    var byExperience := if SeniorByExperience(resume, parseFloat) then Senior else General;
    if SeniorByLevel(job) then Senior else byExperience
  }

  /** With nothing to go on the general templates are chosen. */
  lemma {:induction false} DefaultTemplates(parseFloat: string -> Option<real>)
    ensures PickTemplates([], [], parseFloat) == General
  {
  }

  /** Five or more years of experience choose the senior templates, whatever the job. */
  lemma {:induction false} SeniorFromYears(resume: Fields, job: Fields, parseFloat: string -> Option<real>, years: int)
    requires GetOrNull(resume, "totalExperienceYears") == Int(years) && years >= 5
    ensures PickTemplates(resume, job, parseFloat) == Senior
  {
    assert ToFloat(ResumeExperience(resume), parseFloat) == Ok(years as real);
  }

  /**
   * A truthy `totalExperienceYears` below 5 hides `totalExperience`: `or`
   * stops at the first truthy operand.
   */
  lemma {:induction false} SmallYearsHideTotalExperience(years: int)
    requires 0 < years < 5
    ensures var resume := [("totalExperienceYears", Int(years)), ("totalExperience", Int(10))];
      forall parseFloat: string -> Option<real> :: PickTemplates(resume, [], parseFloat) == General
  {
    var resume := [("totalExperienceYears", Int(years)), ("totalExperience", Int(10))];
    assert GetOrNull(resume, "totalExperienceYears") == Int(years);
    assert ResumeExperience(resume) == Int(years);
  }

  /** A senior level in the job's nested `jobDescription` chooses the senior templates. */
  lemma {:induction false} SeniorFromLevel(resume: Fields, jd: Fields, level: string, parseFloat: string -> Option<real>)
    requires GetOrNull(jd, "experienceLevel") == Str(level) && Contains(Lower(level), "senior")
    ensures PickTemplates(resume, [("jobDescription", Dict(jd))], parseFloat) == Senior
  {
    var job := [("jobDescription", Dict(jd))];
    assert GetOrNull(job, "jobDescription") == Dict(jd);
    assert jd != [];
    assert level != "";
    assert JdLevel(job) == Str(level);
  }

  // ---------------------------------------------------------------------------
  // The job passed on to the prompt
  // ---------------------------------------------------------------------------

  /**
   * What the job lookup of `start_by_candidate_key` leaves in `job_doc`:
   * nothing when the interview names no job; the document the store returned
   * (possibly none) when no job description could be extracted from it; or the
   * converted job description.
   */
  datatype JobLookup = NoJob | RawJob(doc: Option<Fields>) | Described(jd: Fields)

  function JobDocOf(job: JobLookup): Option<Fields> {
    match job
    case NoJob => None
    case RawJob(d) => d
    case Described(jd) => Some(jd)
  }

  /** A document as the value printed into the prompt, `None` when absent. */
  function DocValue(doc: Option<Fields>): Value {
    if doc.Some? then Dict(doc.value) else Null
  }

  /**
   * The templates as `start_by_candidate_key` picks them: from `job_doc or {}`,
   * which holds the converted job description itself once one was extracted.
   */
  function AsWrittenTemplates(resume: Fields, job: JobLookup, parseFloat: string -> Option<real>): Templates {
    PickTemplates(resume, JobDocOf(job).GetOr([]), parseFloat)
  }

  /**
   * A job description whose level is "Senior", passed on as `job_doc`, does
   * not lead to the senior templates: the heuristic looks for a nested
   * `jobDescription` key, which the job description itself does not have.
   */
  lemma {:induction false} AsWrittenJdLevelIgnored(parseFloat: string -> Option<real>)
    ensures var jd := [("experienceLevel", Str("Senior"))];
      && AsWrittenTemplates([], Described(jd), parseFloat) == General
      && SeniorByLevel([("jobDescription", Dict(jd))])
  {
    var jd := [("experienceLevel", Str("Senior"))];
    SeniorSaysSenior();
    assert GetOrNull([("jobDescription", Dict(jd))], "jobDescription") == Dict(jd);
    assert JdLevel([("jobDescription", Dict(jd))]) == Str("Senior");
    assert GetOrNull(jd, "jobDescription") == Null;
  }

  lemma {:induction false} SeniorSaysSenior()
    ensures Contains(Lower("Senior"), "senior")
  {
    var lowered := Lower("Senior");
    assert lowered == "senior" by {
      assert lowered[0] == LowerChar('S');
    }
    assert OccursAt(lowered, "senior", 0);
  }

  /**
   * The templates with the job description given to the heuristic under the
   * `jobDescription` key it reads, as for a job document; any other lookup
   * result is passed as it is.
   */
  function StartTemplates(resume: Fields, job: JobLookup, parseFloat: string -> Option<real>): (r: Templates)
    ensures job.Described? ==> (r == Senior <==> SeniorByExperience(resume, parseFloat) || SeniorByLevel([("jobDescription", Dict(job.jd))]))
    ensures !job.Described? ==> r == AsWrittenTemplates(resume, job, parseFloat)
  {
    match job
    case Described(jd) => PickTemplates(resume, [("jobDescription", Dict(jd))], parseFloat)
    case _ => AsWrittenTemplates(resume, job, parseFloat)
  }

  /** An extracted job description with a senior level now leads to the senior templates. */
  lemma {:induction false} StartTemplatesReadJdLevel(resume: Fields, jd: Fields, level: string, parseFloat: string -> Option<real>)
    requires GetOrNull(jd, "experienceLevel") == Str(level) && Contains(Lower(level), "senior")
    ensures StartTemplates(resume, Described(jd), parseFloat) == Senior
  {
    SeniorFromLevel(resume, jd, level, parseFloat);
  }

  // ---------------------------------------------------------------------------
  // The start request
  // ---------------------------------------------------------------------------

  /** `interview_doc.get("candidate") or .get("candidate_id") or .get("candidateId")`. */
  function CandidateRef(interview: Fields): (r: Value)
    ensures Truthy(r) <==> Truthy(GetOrNull(interview, "candidate")) || Truthy(GetOrNull(interview, "candidate_id"))
                           || Truthy(GetOrNull(interview, "candidateId"))
    ensures Truthy(GetOrNull(interview, "candidate")) ==> r == GetOrNull(interview, "candidate")
    ensures !Truthy(GetOrNull(interview, "candidate")) && Truthy(GetOrNull(interview, "candidate_id"))
            ==> r == GetOrNull(interview, "candidate_id")
    ensures !Truthy(GetOrNull(interview, "candidate")) && !Truthy(GetOrNull(interview, "candidate_id"))
            ==> r == GetOrNull(interview, "candidateId")
  {
    Or(Or(GetOrNull(interview, "candidate"), GetOrNull(interview, "candidate_id")), GetOrNull(interview, "candidateId"))
  }

  /** `interview_doc.get("job") or .get("job_id") or .get("jobId")`. */
  function JobRef(interview: Fields): Value {
    Or(Or(GetOrNull(interview, "job"), GetOrNull(interview, "job_id")), GetOrNull(interview, "jobId"))
  }

  /** The agent id passed in the token metadata: `str()` of `agentId`, nothing when it is absent or null. */
  function AgentIdOf(interview: Fields, pyStr: Value -> string): (r: Option<string>)
    ensures r.None? <==> GetOrNull(interview, "agentId") == Null
  {
    var v := GetOrNull(interview, "agentId");
    if v.Null? then None else Some(pyStr(v))
  }

  /** The first document whose `candidateKey` is the given key (`find_one`). */
  function FindByCandidateKey(docs: seq<Fields>, key: string): (r: Option<Fields>)
    ensures r.Some? ==> r.value in docs && GetOrNull(r.value, "candidateKey") == Str(key)
    ensures r.None? ==> forall d :: d in docs ==> GetOrNull(d, "candidateKey") != Str(key)
  {
    if docs == [] then None
    else if GetOrNull(docs[0], "candidateKey") == Str(key) then Some(docs[0])
    else FindByCandidateKey(docs[1..], key)
  }

  /** What the dispatch token is created for. */
  datatype Dispatch = Dispatch(agentName: string, roomName: string, prompt: string, agentId: Option<string>, identity: string)

  /** The response schema of `app/schemas/utils_schemas.py`; the scheduled time is the UTC instant the response was built. */
  datatype ScheduleResponse = ScheduleResponse(message: string, agentName: string, roomName: string,
                                               scheduledTime: DateTime, token: string)

  datatype StartOutcome = Refused(refusal: Refusal) | Started(response: ScheduleResponse)

  const MissingCandidateDetail: string := "interview_keys entry missing candidate reference"

  const StartedMessage: string := "Agent started immediately. Awaiting candidate to join."
  const IgnoredMessage: string := "Agent already running (start request was ignored); token created."

  /**
   * Everything outside the service that a start request consults, each
   * reading taken as given.
   */
  datatype Env = Env(
    /** `find_one` on `interview_keys` raises. */
    interviewDbFails: bool,
    /** `datetime.now(timezone.utc)` when the time is checked, and when the response is built. */
    now: int,
    later: int,
    isoParse: string -> Option<DateTime>,
    isoFormat: DateTime -> string,
    /** `str()` of a value. */
    pyStr: Value -> string,
    parseFloat: string -> Option<real>,
    /** `Resume.model_validate(raw).model_dump()`, nothing when validation raises. */
    validateResume: Fields -> Option<Fields>,
    /**
     * `Job.model_validate(doc)` followed by the dump of its `jobDescription`:
     * an error when validation raises, nothing when the job has no description.
     */
    validateJob: Fields -> Result<Option<Fields>, string>,
    /** The two `uuid.uuid4()` texts, for the room and for the agent. */
    roomUuid: string,
    agentUuid: string,
    /** `create_token_with_agent_dispatch`. */
    createToken: Dispatch -> Option<string>,
    /** The `started` flag `agent_registry.start_now` returns. */
    started: bool)

  class InterviewManager {
    const mongo: MongoService

    constructor(mongo: MongoService)
      ensures this.mongo == mongo
    {
      this.mongo := mongo;
    }

    /** `_find_interview_by_candidate_key`: the raw stored document, not serialised. */
    function FindInterviewByCandidateKey(key: string): Option<Fields>
      reads mongo
    {
      FindByCandidateKey(mongo.Docs(InterviewKeys), key)
    }

    /**
     * The resume steps of `start_by_candidate_key`: the stored resume,
     * validated and converted; 500 when validation fails, 404 when there is no
     * resume or it comes out empty.
     */
    function LoadResume(candidateId: string, env: Env): (r: Result<Fields, Refusal>)
      reads mongo
      ensures r.Ok? ==> exists raw :: (mongo.GetResumeById(candidateId) == Some(raw) && raw != []
                        && env.validateResume(raw).Some? && env.validateResume(raw).value != []
                        && r.value == NormalizeDocToStr(env.validateResume(raw)).value)
      ensures r.Err? ==> r.error.status == 404 || r.error == Refusal(500, "Invalid resume format")
      ensures mongo.GetResumeById(candidateId).None? ==> r == Err(Refusal(404, "Candidate resume not found for id " + candidateId))
    {
      var raw := mongo.GetResumeById(candidateId);
      if raw.None? || raw.value == [] then Err(Refusal(404, "Candidate resume not found for id " + candidateId))
      else
        var validated := env.validateResume(raw.value);
        if validated.None? then Err(Refusal(500, "Invalid resume format"))
        else if validated.value == [] then Err(Refusal(404, "Candidate resume not found for id " + candidateId))
        else Ok(NormalizeDocToStr(validated).value)
    }

    /** The job steps of `start_by_candidate_key`; no outcome of them refuses the request. */
    function LoadJob(interview: Fields, env: Env): (r: JobLookup)
      reads mongo
      ensures !Truthy(JobRef(interview)) <==> r.NoJob?
      ensures r.RawJob? ==> r.doc == mongo.GetJobById(env.pyStr(JobRef(interview)))
      ensures r.Described? ==> exists raw, jd :: (mongo.GetJobById(env.pyStr(JobRef(interview))) == Some(raw)
                               && env.validateJob(raw) == Ok(Some(jd)) && jd != [] && Some(r.jd) == NormalizeDocToStr(Some(jd)))
    {
      var ref := JobRef(interview);
      if !Truthy(ref) then NoJob
      else
        var raw := mongo.GetJobById(env.pyStr(ref));
        var jd := if raw.None? || raw.value == [] then None
                  else match env.validateJob(raw.value)
                    case Err(_) => None
                    case Ok(d) => d;
        if jd.Some? && jd.value != [] then Described(NormalizeDocToStr(jd).value) else RawJob(raw)
    }

    /** The prompt and the names the token is created for, once the resume is in hand. */
    function DispatchFor(interview: Fields, candidateId: string, resume: Fields, env: Env): (d: Dispatch)
      reads mongo
      ensures d.agentName == "agent-" + env.agentUuid && d.roomName == "interview-" + env.roomUuid
      ensures d.identity == candidateId && d.agentId == AgentIdOf(interview, env.pyStr)
      ensures d.prompt == CreateInterviewPrompt(env.pyStr(Dict(resume)), env.pyStr(DocValue(JobDocOf(LoadJob(interview, env)))),
                                                StartTemplates(resume, LoadJob(interview, env), env.parseFloat).interviewTemplate)
    {
      var job := LoadJob(interview, env);
      var templates := StartTemplates(resume, job, env.parseFloat);
      var prompt := CreateInterviewPrompt(env.pyStr(Dict(resume)), env.pyStr(DocValue(JobDocOf(job))), templates.interviewTemplate);
      Dispatch("agent-" + env.agentUuid, "interview-" + env.roomUuid, prompt, AgentIdOf(interview, env.pyStr), candidateId)
    }

    /** The last step: the access token for the dispatch, and the response built around it. */
    static function Respond(d: Dispatch, env: Env): StartOutcome {
      var token := env.createToken(d);
      if token.None? || token.value == "" then Refused(Refusal(500, "Failed to create access token for interview."))
      else
        var message := if env.started then StartedMessage else IgnoredMessage;
        Started(ScheduleResponse(message, d.agentName, d.roomName, DateTime(env.later, Some(0)), token.value))
    }

    /** A response that goes ahead carries the dispatch's names, its non-empty token, and the time in UTC. */
    static lemma {:induction false} RespondStarted(d: Dispatch, env: Env)
      requires Respond(d, env).Started?
      ensures var r := Respond(d, env).response;
        && r.agentName == d.agentName && r.roomName == d.roomName
        && Some(r.token) == env.createToken(d) && r.token != ""
        && (r.message == StartedMessage <==> env.started)
        && UtcInstant(r.scheduledTime) == env.later
    {
      MessagesDiffer();
    }

    /** The steps after the time check: the candidate, the resume, the prompt and the token. */
    function Proceed(interview: Fields, env: Env): (r: StartOutcome)
      reads mongo
      ensures r.Refused? && r.refusal.status == 400 ==> r.refusal.detail == MissingCandidateDetail
    {
      var ref := CandidateRef(interview);
      if !Truthy(ref) then Refused(Refusal(400, MissingCandidateDetail))
      else
        var candidateId := env.pyStr(ref);
        var resume := LoadResume(candidateId, env);
        if resume.Err? then Refused(resume.error)
        else
          Respond(DispatchFor(interview, candidateId, resume.value, env), env)
    }

    /** The steps after the interview document was found. */
    function StartFound(interview: Fields, env: Env): StartOutcome
      reads mongo
    {
      var parsed := ParseInterviewTime(GetOrNull(interview, "interviewTime"), env.isoParse);
      if TooEarly(parsed, env.now) then Refused(Refusal(400, EarlyDetail(parsed.value, env.isoFormat)))
      else Proceed(interview, env)
    }

    /** `start_by_candidate_key`. */
    function StartByCandidateKey(key: string, env: Env): (r: StartOutcome)
      reads mongo
      ensures env.interviewDbFails ==> r == Refused(Refusal(500, "Database error when searching interview_keys"))
      ensures !env.interviewDbFails && (FindInterviewByCandidateKey(key).None? || FindInterviewByCandidateKey(key).value == [])
              ==> r == Refused(Refusal(404, "No scheduled interview found for candidateKey=" + key))
    {
      if env.interviewDbFails then Refused(Refusal(500, "Database error when searching interview_keys"))
      else
        var found := FindInterviewByCandidateKey(key);
        if found.None? || found.value == [] then Refused(Refusal(404, "No scheduled interview found for candidateKey=" + key))
        else StartFound(found.value, env)
    }

    /** A start that goes ahead had a stored interview with the key, due by now, naming a candidate with a resume. */
    lemma {:induction false} StartedMeansDue(key: string, env: Env)
      ensures var r := StartByCandidateKey(key, env);
        r.Started? ==> && !env.interviewDbFails
                       && FindInterviewByCandidateKey(key).Some?
                       && GetOrNull(FindInterviewByCandidateKey(key).value, "candidateKey") == Str(key)
                       && !TooEarly(ParseInterviewTime(GetOrNull(FindInterviewByCandidateKey(key).value, "interviewTime"), env.isoParse), env.now)
                       && Truthy(CandidateRef(FindInterviewByCandidateKey(key).value))
                       && LoadResume(env.pyStr(CandidateRef(FindInterviewByCandidateKey(key).value)), env).Ok?
    {
    }

    /**
     * Once the interview is found, the request is refused with the
     * not-yet-time detail when the interview time lies after now, and goes on
     * to the candidate steps otherwise, where a 400 can only mean a missing
     * candidate; a missing or unreadable time never refuses it.
     */
    lemma {:induction false} TimeGate(interview: Fields, env: Env)
      ensures var parsed := ParseInterviewTime(GetOrNull(interview, "interviewTime"), env.isoParse);
        && (TooEarly(parsed, env.now) ==> StartFound(interview, env) == Refused(Refusal(400, EarlyDetail(parsed.value, env.isoFormat))))
        && (!TooEarly(parsed, env.now) ==> StartFound(interview, env) == Proceed(interview, env))
        && (parsed.None? ==> StartFound(interview, env) == Proceed(interview, env))
    {
    }

    /** Once the interview is found and due, a missing candidate reference is refused with 400. */
    lemma {:induction false} CandidateGate(interview: Fields, env: Env)
      requires !TooEarly(ParseInterviewTime(GetOrNull(interview, "interviewTime"), env.isoParse), env.now)
      ensures StartFound(interview, env) == Refused(Refusal(400, MissingCandidateDetail))
              <==> !(Truthy(GetOrNull(interview, "candidate")) || Truthy(GetOrNull(interview, "candidate_id"))
                     || Truthy(GetOrNull(interview, "candidateId")))
    {
      var ref := CandidateRef(interview);
      if Truthy(ref) {
        var resume := LoadResume(env.pyStr(ref), env);
        assert resume.Err? ==> resume.error.status != 400;
      }
    }

    /**
     * A start that goes ahead answers with a non-empty token created for
     * the referenced candidate and the prompt built from their resume, and its
     * message says whether the agent was actually started.
     */
    lemma {:induction false} StartedResponse(interview: Fields, env: Env)
      ensures var r := StartFound(interview, env);
        r.Started? ==>
          var candidateId := env.pyStr(CandidateRef(interview));
          var d := DispatchFor(interview, candidateId, LoadResume(candidateId, env).value, env);
          && LoadResume(candidateId, env).Ok?
          && d.identity == candidateId
          && r.response.agentName == "agent-" + env.agentUuid
          && r.response.roomName == "interview-" + env.roomUuid
          && Some(r.response.token) == env.createToken(d)
          && r.response.token != ""
          && (r.response.message == StartedMessage <==> env.started)
          && UtcInstant(r.response.scheduledTime) == env.later
    {
      if StartFound(interview, env).Started? {
        ProceedStarted(interview, env);
      }
    }

    /** What a start that goes ahead answers, once the interview is due. */
    lemma {:induction false} ProceedStarted(interview: Fields, env: Env)
      requires Proceed(interview, env).Started?
      ensures var r := Proceed(interview, env);
        var candidateId := env.pyStr(CandidateRef(interview));
        var d := DispatchFor(interview, candidateId, LoadResume(candidateId, env).value, env);
        && LoadResume(candidateId, env).Ok?
        && d.identity == candidateId
        && r.response.agentName == "agent-" + env.agentUuid
        && r.response.roomName == "interview-" + env.roomUuid
        && Some(r.response.token) == env.createToken(d)
        && r.response.token != ""
        && (r.response.message == StartedMessage <==> env.started)
        && UtcInstant(r.response.scheduledTime) == env.later
    {
      var candidateId := env.pyStr(CandidateRef(interview));
      RespondStarted(DispatchFor(interview, candidateId, LoadResume(candidateId, env).value, env), env);
    }

    /** The two success messages are told apart. */
    static lemma {:induction false} MessagesDiffer()
      ensures StartedMessage != IgnoredMessage
    {
      assert |StartedMessage| != |IgnoredMessage|;
    }

    /** With the resume in hand, the request is refused with 500 exactly when the token comes back empty. */
    lemma {:induction false} TokenGate(interview: Fields, env: Env)
      requires !TooEarly(ParseInterviewTime(GetOrNull(interview, "interviewTime"), env.isoParse), env.now)
      requires Truthy(CandidateRef(interview))
      requires LoadResume(env.pyStr(CandidateRef(interview)), env).Ok?
      ensures var candidateId := env.pyStr(CandidateRef(interview));
        var token := env.createToken(DispatchFor(interview, candidateId, LoadResume(candidateId, env).value, env));
        StartFound(interview, env).Refused? <==> token.None? || token.value == ""
    {
    }
  }
}
