/**
 * The `/rank` endpoint of `app/api/ranker.py`: request checks, the ranking,
 * and the `top_k` cut of the ranked list.
 */
module RankerApi {
  import opened Wrappers
  import opened Text
  import opened RankingService

  /** `config.MAX_RESUMES` and `config.EMBED_BATCH_SIZE` when the environment does not set them. */
  const DefaultMaxResumes: int := 1000
  const DefaultEmbedBatchSize: int := 32

  datatype RankRequest = RankRequest(jobDescription: string, resumes: seq<Resume>, topK: Option<int>)

  datatype RankResponse =
    | RankRejected(status: int, detail: string)
    | RankResult(totalResumes: int, returned: int, results: seq<RankedResume>)

  /** The decimal text of a natural number. */
  function NatText(n: nat): string
    decreases n
  {
    var digit := ["0", "1", "2", "3", "4", "5", "6", "7", "8", "9"][n % 10];
    if n < 10 then digit else NatText(n / 10) + digit
  }

  /** `f"{i}"` for an integer. */
  function IntText(i: int): string {
    if i < 0 then "-" + NatText(-i) else NatText(i)
  }

  /**
   * `s[:k]`: the first `k` elements; a negative `k` drops the last `-k`,
   * and a bound beyond the length is clamped.
   */
  function PrefixSlice<T>(s: seq<T>, k: int): (r: seq<T>)
    ensures 0 <= k <= |s| ==> r == s[..k]
    ensures k > |s| ==> r == s
    ensures -|s| <= k < 0 ==> r == s[..|s| + k]
    ensures k < -|s| ==> r == []
  {
    var end := if k >= 0 then k else |s| + k;
    if end <= 0 then [] else if end >= |s| then s else s[..end]
  }

  /**
   * `rank_resumes`. `maxResumes` and `batchSize` are the configured limits;
   * `embed` and `similarity` are the embedding model.
   */
  function RankResumes<E>(req: RankRequest, maxResumes: int, batchSize: int, embed: string -> E, similarity: E -> real)
    : (r: RankResponse)
    ensures AllSpace(req.jobDescription) ==> r == RankRejected(400, "job_description is empty")
    ensures !AllSpace(req.jobDescription) && req.resumes == [] ==> r == RankRejected(400, "No resumes provided")
    ensures !AllSpace(req.jobDescription) && req.resumes != [] && |req.resumes| > maxResumes ==>
      r == RankRejected(413, "Too many resumes. Max allowed is " + IntText(maxResumes))
  {
    var n := |req.resumes|;
    if Strip(req.jobDescription) == "" then RankRejected(400, "job_description is empty")
    else if n == 0 then RankRejected(400, "No resumes provided")
    else if n > maxResumes then RankRejected(413, "Too many resumes. Max allowed is " + IntText(maxResumes))
    else
      var ranked := RankOutcome(embed, similarity, req.resumes, batchSize);
      if ranked.Err? then RankRejected(500, "Internal server error: " + ranked.error)
      else
        var topK := if req.topK.Some? then req.topK.value else n;
        var results := PrefixSlice(ranked.value, topK);
        RankResult(n, |results|, results)
  }

  /**
   * An accepted request reports every resume in `total_resumes` and returns
   * the first `top_k` entries of the ranking (all of them when `top_k` is
   * absent), with `returned` their count.
   */
  lemma {:induction false} RankResumesAccepted<E>(req: RankRequest, maxResumes: int, batchSize: int, embed: string -> E, similarity: E -> real)
    requires !AllSpace(req.jobDescription) && 0 < |req.resumes| <= maxResumes && batchSize > 0
    ensures var r := RankResumes(req, maxResumes, batchSize, embed, similarity);
      var ranked := Ranked(req.resumes, Scores(embed, similarity, req.resumes));
      var n := |req.resumes|;
      var k := req.topK.GetOr(n);
      && r.RankResult?
      && r.totalResumes == n
      && r.returned == |r.results| <= n
      && r.results == ranked[..r.returned]
      && (k >= 0 ==> r.returned == if k < n then k else n)
      && (k < 0 ==> r.returned == if n + k > 0 then n + k else 0)
  {
    assert Strip(req.jobDescription) != "";
    var ranked := Ranked(req.resumes, Scores(embed, similarity, req.resumes));
    assert RankResumes(req, maxResumes, batchSize, embed, similarity)
        == RankResult(|req.resumes|, |PrefixSlice(ranked, req.topK.GetOr(|req.resumes|))|, PrefixSlice(ranked, req.topK.GetOr(|req.resumes|)));
    TopKCut(ranked, req.topK.GetOr(|req.resumes|));
  }

  /** `s[:k]` is a prefix of `s` whose length is `k` clamped to the length of `s`, counted from the end when negative. */
  lemma {:induction false} TopKCut<T>(s: seq<T>, k: int)
    ensures var r := PrefixSlice(s, k);
      && |r| <= |s| && r == s[..|r|]
      && (k >= 0 ==> |r| == if k < |s| then k else |s|)
      && (k < 0 ==> |r| == if |s| + k > 0 then |s| + k else 0)
  {
    assert s[..|s|] == s;
  }

  /** An absent `top_k` returns the whole ranking. */
  lemma {:induction false} RankResumesDefaultTopK<E>(req: RankRequest, maxResumes: int, batchSize: int, embed: string -> E, similarity: E -> real)
    requires !AllSpace(req.jobDescription) && 0 < |req.resumes| <= maxResumes && batchSize > 0
    requires req.topK.None?
    ensures RankResumes(req, maxResumes, batchSize, embed, similarity)
         == RankResult(|req.resumes|, |req.resumes|, Ranked(req.resumes, Scores(embed, similarity, req.resumes)))
  {
    RankResumesAccepted(req, maxResumes, batchSize, embed, similarity);
  }

  /** A valid request that the ranking fails on is answered with 500 and the ranking's error. */
  lemma {:induction false} RankResumesServerError<E>(req: RankRequest, maxResumes: int, batchSize: int, embed: string -> E, similarity: E -> real)
    requires !AllSpace(req.jobDescription) && 0 < |req.resumes| <= maxResumes && batchSize <= 0
    ensures RankResumes(req, maxResumes, batchSize, embed, similarity)
         == RankRejected(500, "Internal server error: "
              + (if batchSize == 0 then "range() arg 3 must not be zero" else "torch.cat(): expected a non-empty list of Tensors"))
  {
    assert Strip(req.jobDescription) != "";
  }
}
