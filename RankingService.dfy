/**
 * `app/services/ranking_service.py`: a resume rendered as text, the texts
 * embedded in batches, and the resumes ranked by their similarity to the job
 * description. The embedding model is a function `embed` from a text to its
 * embedding, applied to every text of a batch on its own, and the cosine
 * similarity to the embedded job description is a function `similarity` on
 * embeddings; both stand for the sentence-transformer and torch code, whose
 * numerics are not modelled.
 */
module RankingService {
  import opened Wrappers
  import opened Text
  import opened Sorting

  /** The fields of an experience entry the text is built from. */
  datatype Experience = Experience(title: string, company: string, description: Option<string>)

  datatype Skill = Skill(name: string)

  /** The fields of a resume the ranking reads. */
  datatype Resume = Resume(candidateId: string, name: string, summary: Option<string>,
                           experience: seq<Experience>, skills: seq<Skill>)

  /** `RankedResume`. */
  datatype RankedResume = RankedResume(candidateId: string, name: string, score: real, resume: Resume)

  // ---------------------------------------------------------------------------
  // `_serialize_resume`
  // ---------------------------------------------------------------------------

  /** The entry's title and company, and its description when that is non-empty text. */
  function ExperienceParts(e: Experience): seq<string> {
    [e.title, e.company] + (if Given(e.description) then [e.description.value] else [])
  }

  /** The non-empty parts, each stripped, in order. */
  function StrippedParts(parts: seq<string>): (r: seq<string>)
    ensures |r| <= |parts|
    ensures forall p :: p in r ==> exists q :: q in parts && q != "" && p == Strip(q)
  {
    if parts == [] then []
    else (if parts[0] != "" then [Strip(parts[0])] else []) + StrippedParts(parts[1..])
  }

  /** One experience entry: its non-empty parts, stripped, joined by " | ". */
  function ExperienceLine(e: Experience): string {
    Join(StrippedParts(ExperienceParts(e)), " | ")
  }

  function ExperienceLines(es: seq<Experience>): (r: seq<string>)
    ensures |r| == |es| && forall i :: 0 <= i < |es| ==> r[i] == ExperienceLine(es[i])
  {
    seq(|es|, i requires 0 <= i < |es| => ExperienceLine(es[i]))
  }

  function SkillNames(skills: seq<Skill>): (r: seq<string>)
    ensures |r| == |skills| && forall i :: 0 <= i < |skills| ==> r[i] == skills[i].name
  {
    seq(|skills|, i requires 0 <= i < |skills| => skills[i].name)
  }

  function SummaryPart(r: Resume): seq<string> {
    if Given(r.summary) then ["Summary: " + r.summary.value] else []
  }

  function ExperiencePart(r: Resume): seq<string> {
    if r.experience != [] then ["Experience: " + Join(ExperienceLines(r.experience), " || ")] else []
  }

  function SkillsPart(r: Resume): seq<string> {
    if r.skills != [] then ["Skills: " + Join(SkillNames(r.skills), ", ")] else []
  }

  /** The sections present, in the order summary, experience, skills. */
  function ResumeParts(r: Resume): seq<string> {
    SummaryPart(r) + ExperiencePart(r) + SkillsPart(r)
  }

  /** The text of a resume: its sections joined by line breaks. */
  function ResumeText(r: Resume): string {
    Join(ResumeParts(r), "\n")
  }

  /** A resume with no summary, experience or skills renders as the empty text. */
  lemma {:induction false} EmptyResumeText(candidateId: string, name: string)
    ensures ResumeText(Resume(candidateId, name, None, [], [])) == ""
  {
    assert ResumeParts(Resume(candidateId, name, None, [], [])) == [];
  }

  /**
   * Each section is present exactly when its field is non-empty; the text
   * opens with the summary when there is one, and otherwise with the
   * experience when there is some.
   */
  lemma {:induction false} ResumeTextSections(r: Resume)
    ensures |ResumeParts(r)| == (if Given(r.summary) then 1 else 0) + (if r.experience != [] then 1 else 0)
                               + (if r.skills != [] then 1 else 0)
    ensures Given(r.summary) ==> ResumeText(r)[..|"Summary: " + r.summary.value|] == "Summary: " + r.summary.value
    ensures !Given(r.summary) && r.experience != [] ==>
      var e := "Experience: " + Join(ExperienceLines(r.experience), " || ");
      ResumeText(r)[..|e|] == e
  {
    var parts := ResumeParts(r);
    if parts != [] {
      JoinStartsWithFirst(parts, "\n");
    }
  }

  /** Empty parts are dropped and the others stripped, so an entry with only a title renders as that title, stripped. */
  lemma {:induction false} ExperienceLineTitleOnly(title: string)
    requires title != ""
    ensures ExperienceLine(Experience(title, "", None)) == Strip(title)
  {
    assert ExperienceParts(Experience(title, "", None)) == [title, ""];
    assert StrippedParts([title, ""]) == [Strip(title)] + StrippedParts([""]);
    assert StrippedParts([""]) == [] + StrippedParts([]);
  }

  lemma {:induction false} ExperienceLinesSnoc(es: seq<Experience>, i: nat)
    requires i < |es|
    ensures ExperienceLines(es[..i + 1]) == ExperienceLines(es[..i]) + [ExperienceLine(es[i])]
  {
  }

  /**
   * `_serialize_resume` as written: the sections appended in turn, the
   * experience entries rendered one at a time in a loop.
   */
  method SerializeResume(r: Resume) returns (text: string)
    ensures text == ResumeText(r)
  {
    var parts: seq<string> := [];
    if Given(r.summary) {
      parts := parts + ["Summary: " + r.summary.value];
    }
    assert parts == SummaryPart(r);
    if r.experience != [] {
      var expStrs: seq<string> := [];
      for i := 0 to |r.experience|
        invariant expStrs == ExperienceLines(r.experience[..i])
      {
        var e := r.experience[i];
        var expParts := [e.title, e.company];
        if Given(e.description) {
          expParts := expParts + [e.description.value];
        }
        assert expParts == ExperienceParts(e);
        ExperienceLinesSnoc(r.experience, i);
        expStrs := expStrs + [Join(StrippedParts(expParts), " | ")];
      }
      assert r.experience[..|r.experience|] == r.experience;
      parts := parts + ["Experience: " + Join(expStrs, " || ")];
    }
    assert parts == SummaryPart(r) + ExperiencePart(r);
    if r.skills != [] {
      var skillStrs := seq(|r.skills|, i requires 0 <= i < |r.skills| => r.skills[i].name);
      assert skillStrs == SkillNames(r.skills);
      parts := parts + ["Skills: " + Join(skillStrs, ", ")];
    }
    assert parts == ResumeParts(r);
    text := Join(parts, "\n");
  }

  // ---------------------------------------------------------------------------
  // `_batch_encode`
  // ---------------------------------------------------------------------------

  /** `texts[i: i + batch_size]` for `i` in `range(0, len(texts), batch_size)`. */
  function Chunks(texts: seq<string>, batchSize: nat): (r: seq<seq<string>>)
    requires batchSize > 0
    decreases |texts|
  {
    if texts == [] then []
    else if |texts| <= batchSize then [texts]
    else [texts[..batchSize]] + Chunks(texts[batchSize..], batchSize)
  }

  function Flatten(chunks: seq<seq<string>>): seq<string> {
    if chunks == [] then [] else chunks[0] + Flatten(chunks[1..])
  }

  /** The chunks give back the texts, in order, when concatenated. */
  lemma {:induction false} ChunksFlatten(texts: seq<string>, batchSize: nat)
    requires batchSize > 0
    ensures Flatten(Chunks(texts, batchSize)) == texts
    decreases |texts|
  {
    if texts != [] && |texts| <= batchSize {
      assert Flatten(Chunks(texts, batchSize)) == texts + Flatten([]);
    } else if texts != [] {
      var rest := texts[batchSize..];
      ChunksFlatten(rest, batchSize);
      assert Chunks(texts, batchSize)[1..] == Chunks(rest, batchSize);
      assert texts[..batchSize] + rest == texts;
    }
  }

  /**
   * There are `ceil(n / batch_size)` chunks: no chunks for no texts, and
   * otherwise the least count whose batches cover all the texts.
   */
  lemma {:induction false} ChunksCount(texts: seq<string>, batchSize: nat)
    requires batchSize > 0
    ensures |Chunks(texts, batchSize)| == 0 <==> texts == []
    ensures |texts| <= |Chunks(texts, batchSize)| * batchSize
    ensures texts != [] ==> (|Chunks(texts, batchSize)| - 1) * batchSize < |texts|
    decreases |texts|
  {
    if |texts| > batchSize {
      var rest := texts[batchSize..];
      ChunksCount(rest, batchSize);
      var c := |Chunks(rest, batchSize)|;
      assert |Chunks(texts, batchSize)| == c + 1;
      assert (c + 1) * batchSize == c * batchSize + batchSize;
    }
  }

  /** Each chunk holds at least one and at most `batch_size` texts, and all but the last exactly that many. */
  lemma {:induction false} ChunksSizes(texts: seq<string>, batchSize: nat)
    requires batchSize > 0
    ensures forall k :: 0 <= k < |Chunks(texts, batchSize)| ==> 0 < |Chunks(texts, batchSize)[k]| <= batchSize
    ensures forall k :: 0 <= k < |Chunks(texts, batchSize)| - 1 ==> |Chunks(texts, batchSize)[k]| == batchSize
    decreases |texts|
  {
    if texts != [] && |texts| > batchSize {
      var c := Chunks(texts, batchSize);
      var rest := texts[batchSize..];
      ChunksSizes(rest, batchSize);
      forall k | 0 < k < |c| ensures c[k] == Chunks(rest, batchSize)[k - 1] {
      }
    }
  }

  /** The chunks of a suffix start with the chunk at its front. */
  lemma {:induction false} ChunksStep(texts: seq<string>, i: nat, batchSize: nat)
    requires batchSize > 0 && i < |texts|
    ensures var end := if i + batchSize < |texts| then i + batchSize else |texts|;
      Chunks(texts[i..], batchSize) == [texts[i..end]] + Chunks(texts[end..], batchSize)
  {
    var end := if i + batchSize < |texts| then i + batchSize else |texts|;
    if |texts[i..]| <= batchSize {
      assert texts[end..] == [];
      assert texts[i..][..] == texts[i..end];
    } else {
      assert texts[i..][..batchSize] == texts[i..end];
      assert texts[i..][batchSize..] == texts[end..];
    }
  }

  /**
   * `_batch_encode`: the embeddings of all texts, in order, computed batch
   * by batch. `range` rejects a zero step (ValueError) and `torch.cat` an
   * empty list of batches (RuntimeError), which happens with no texts or a
   * negative batch size. The ghost `batches` are the batches encoded.
   */
  method BatchEncode<E>(embed: string -> E, texts: seq<string>, batchSize: int)
    returns (r: Result<seq<E>, string>, ghost batches: seq<seq<string>>)
    ensures r.Ok? <==> batchSize > 0 && texts != []
    ensures batchSize == 0 ==> r == Err("range() arg 3 must not be zero")
    ensures batchSize != 0 && r.Err? ==> r == Err("torch.cat(): expected a non-empty list of Tensors")
    ensures r.Ok? ==> |r.value| == |texts| && forall i :: 0 <= i < |texts| ==> r.value[i] == embed(texts[i])
    ensures r.Ok? ==> batches == Chunks(texts, batchSize)
  {
    if batchSize == 0 {
      return Err("range() arg 3 must not be zero"), [];
    }
    if batchSize < 0 || texts == [] {
      return Err("torch.cat(): expected a non-empty list of Tensors"), [];
    }
    var all: seq<E> := [];
    batches := [];
    var i := 0;
    while i < |texts|
      invariant 0 <= i <= |texts|
      invariant Chunks(texts, batchSize) == batches + Chunks(texts[i..], batchSize)
      invariant |all| == i && forall j :: 0 <= j < i ==> all[j] == embed(texts[j])
      decreases |texts| - i
    {
      var end := if i + batchSize < |texts| then i + batchSize else |texts|;
      var batch := texts[i..end];
      ChunksStep(texts, i, batchSize);
      var embeddings := seq(|batch|, j requires 0 <= j < |batch| => embed(batch[j]));
      assert forall j :: i <= j < end ==> embeddings[j - i] == embed(texts[j]);
      all := all + embeddings;
      assert batches + Chunks(texts[i..], batchSize) == (batches + [batch]) + Chunks(texts[end..], batchSize);
      batches := batches + [batch];
      i := end;
    }
    assert texts[i..] == [];
    r := Ok(all);
  }

  // ---------------------------------------------------------------------------
  // `rank_resumes_by_similarity`
  // ---------------------------------------------------------------------------

  function Range(n: nat): (r: seq<nat>)
    ensures |r| == n && forall i :: 0 <= i < n ==> r[i] == i
  {
    seq(n, i requires 0 <= i < n => i)
  }

  /** The sort key of `np.argsort(-similarities)` for an index. */
  function NegatedScore(scores: seq<real>): nat -> (int, real) {
    (i: nat) => if i < |scores| then (0, -scores[i]) else (0, 0.0)
  }

  /**
   * `np.argsort(-similarities)`: the indices ordered by decreasing score.
   * NumPy does not fix the order of equal scores; this one keeps index order.
   */
  function ArgsortDesc(scores: seq<real>): seq<nat> {
    SortBy(Range(|scores|), NegatedScore(scores))
  }

  /** The order is a permutation of the indices with non-increasing scores. */
  lemma {:induction false} ArgsortDescSpec(scores: seq<real>)
    ensures multiset(ArgsortDesc(scores)) == multiset(Range(|scores|))
    ensures |ArgsortDesc(scores)| == |scores|
    ensures forall k :: 0 <= k < |scores| ==> ArgsortDesc(scores)[k] < |scores|
    ensures forall k, l :: 0 <= k < l < |scores| ==> scores[ArgsortDesc(scores)[k]] >= scores[ArgsortDesc(scores)[l]]
  {
    var o := ArgsortDesc(scores);
    SortBySorted(Range(|scores|), NegatedScore(scores));
    forall k | 0 <= k < |scores| ensures o[k] < |scores| {
      assert o[k] in multiset(Range(|scores|));
    }
    forall k, l | 0 <= k < l < |scores| ensures scores[o[k]] >= scores[o[l]] {
      assert KeyLe(NegatedScore(scores)(o[k]), NegatedScore(scores)(o[l]));
    }
  }

  /** The order holds one valid index per score. */
  lemma {:induction false} ArgsortDescBounds(scores: seq<real>)
    ensures |ArgsortDesc(scores)| == |scores|
    ensures forall k :: 0 <= k < |scores| ==> ArgsortDesc(scores)[k] < |scores|
  {
    ArgsortDescSpec(scores);
  }

  /** Every index appears in the order exactly once. */
  lemma {:induction false} ArgsortDescOnce(scores: seq<real>, i: nat)
    requires i < |scores|
    ensures multiset(ArgsortDesc(scores))[i] == 1
  {
    ArgsortDescSpec(scores);
    RangeOnce(|scores|, i);
  }

  lemma {:induction false} RangeOnce(n: nat, i: nat)
    requires i < n
    ensures multiset(Range(n))[i] == 1
  {
    if n == i + 1 {
      assert Range(n) == Range(i) + [i];
      assert i !in Range(i);
    } else {
      RangeOnce(n - 1, i);
      assert Range(n) == Range(n - 1) + [n - 1];
    }
  }

  /** The ranked entry for the resume at index `i`. */
  function EntryFor(resumes: seq<Resume>, scores: seq<real>, i: nat): RankedResume
    requires i < |resumes| && i < |scores|
  {
    RankedResume(resumes[i].candidateId, resumes[i].name, scores[i], resumes[i])
  }

  /** The similarities of the resumes' texts to the job description. */
  function Scores<E>(embed: string -> E, similarity: E -> real, resumes: seq<Resume>): (s: seq<real>)
    ensures |s| == |resumes|
  {
    seq(|resumes|, i requires 0 <= i < |resumes| => similarity(embed(ResumeText(resumes[i]))))
  }

  /** The resumes in the order of decreasing score, each with its score. */
  function Ranked(resumes: seq<Resume>, scores: seq<real>): (r: seq<RankedResume>)
    requires |scores| == |resumes|
    ensures |r| == |resumes|
  {
    var o := ArgsortDesc(scores);
    ArgsortDescSpec(scores);
    seq(|resumes|, k requires 0 <= k < |resumes| => EntryFor(resumes, scores, o[k]))
  }

  /**
   * The ranking holds one entry per resume, each resume exactly once, with
   * non-increasing scores; each entry carries its own resume's candidate id,
   * name and score.
   */
  lemma {:induction false} RankedSpec(resumes: seq<Resume>, scores: seq<real>)
    requires |scores| == |resumes|
    ensures var r := Ranked(resumes, scores);
      var o := ArgsortDesc(scores);
      && |o| == |r|
      && multiset(o) == multiset(Range(|resumes|))
      && (forall k :: 0 <= k < |r| ==>
            o[k] < |resumes| && r[k].resume == resumes[o[k]] && r[k].score == scores[o[k]]
            && r[k].candidateId == r[k].resume.candidateId && r[k].name == r[k].resume.name)
      && (forall k, l :: 0 <= k < l < |r| ==> r[k].score >= r[l].score)
  {
    ArgsortDescSpec(scores);
  }

  /** What `rank_resumes_by_similarity` returns or raises. */
  function RankOutcome<E>(embed: string -> E, similarity: E -> real, resumes: seq<Resume>, batchSize: int)
    : (r: Result<seq<RankedResume>, string>)
    ensures r.Ok? <==> batchSize > 0 && resumes != []
    ensures r.Ok? ==> r.value == Ranked(resumes, Scores(embed, similarity, resumes))
  {
    if batchSize == 0 then Err("range() arg 3 must not be zero")
    else if batchSize < 0 || resumes == [] then Err("torch.cat(): expected a non-empty list of Tensors")
    else Ok(Ranked(resumes, Scores(embed, similarity, resumes)))
  }

  /** The first loop of `rank_resumes_by_similarity`: the text of every resume, in order. */
  method SerializeAll(resumes: seq<Resume>) returns (texts: seq<string>)
    ensures |texts| == |resumes|
    ensures forall j :: 0 <= j < |resumes| ==> texts[j] == ResumeText(resumes[j])
  {
    texts := [];
    for i := 0 to |resumes|
      invariant |texts| == i && forall j :: 0 <= j < i ==> texts[j] == ResumeText(resumes[j])
    {
      var t := SerializeResume(resumes[i]);
      texts := texts + [t];
    }
  }

  /** The last loop of `rank_resumes_by_similarity`: one entry per index of the `argsort` order. */
  method AppendRanked(resumes: seq<Resume>, similarities: seq<real>) returns (ranked: seq<RankedResume>)
    requires |similarities| == |resumes|
    ensures ranked == Ranked(resumes, similarities)
  {
    var sortedIndices := ArgsortDesc(similarities);
    ArgsortDescBounds(similarities);
    ranked := [];
    for k := 0 to |sortedIndices|
      invariant |ranked| == k
      invariant forall l :: 0 <= l < k ==> ranked[l] == EntryFor(resumes, similarities, sortedIndices[l])
    {
      var i := sortedIndices[k];
      var candidate := resumes[i];
      var score := similarities[i];
      ranked := ranked + [RankedResume(candidate.candidateId, candidate.name, score, candidate)];
    }
  }

  /**
   * `rank_resumes_by_similarity` as written: the texts built in turn, the
   * embeddings computed in batches, and the ranked list appended to in the
   * order of decreasing similarity.
   */
  method RankResumesBySimilarity<E>(embed: string -> E, similarity: E -> real, resumes: seq<Resume>, batchSize: int)
    returns (r: Result<seq<RankedResume>, string>)
    ensures r == RankOutcome(embed, similarity, resumes, batchSize)
  {
    var texts := SerializeAll(resumes);
    var embeddings, _ := BatchEncode(embed, texts, batchSize);
    if embeddings.Err? {
      return Err(embeddings.error);
    }
    var similarities := seq(|resumes|, i requires 0 <= i < |resumes| => similarity(embeddings.value[i]));
    assert similarities == Scores(embed, similarity, resumes);
    var ranked := AppendRanked(resumes, similarities);
    r := Ok(ranked);
  }
}
