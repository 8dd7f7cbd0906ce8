/**
 * `create_interview_prompt` of `app/helpers/prompt_builder.py`: one
 * f-string that places the interview template, the job description and the
 * resume between fixed headings.
 */
module PromptBuilder {
  /** The f-string opens with a line break, before the template. */
  const Opening: string := "\n"
  const Intro: string := "\n\nHere is the context for the interview you are about to conduct.\n\n"
  const JobHeading: string := "--- JOB DESCRIPTION ---\n"
  const JobFooter: string := "\n--- END JOB DESCRIPTION ---"
  const Gap: string := "\n\n\n"
  const ResumeHeading: string := "--- CANDIDATE RESUME ---\n"
  const ResumeFooter: string := "\n--- END CANDIDATE RESUME ---"
  const Outro: string := "\n\nPlease begin the interview when you are ready. Greet the candidate by name and start with your first question.\n"

  /** The prompt for the interviewer agent. */
  function CreateInterviewPrompt(resume: string, jobDescription: string, interviewTemplate: string): string {
    Opening + interviewTemplate + Intro + JobHeading + jobDescription + JobFooter + Gap + ResumeHeading + resume + ResumeFooter + Outro
  }

  /** The lengths of the fixed pieces. */
  lemma {:induction false} PieceLengths()
    ensures |Opening| == 1 && |Intro| == 67 && |JobHeading| == 24 && |JobFooter| == 28
    ensures |Gap| == 3 && |ResumeHeading| == 25 && |ResumeFooter| == 29 && |Outro| == 113
  {
  }

  /** Where the job description starts in the prompt. */
  function JobStart(interviewTemplate: string): nat {
    |Opening| + |interviewTemplate| + |Intro| + |JobHeading|
  }

  /** Where the resume starts in the prompt. */
  function ResumeStart(jobDescription: string, interviewTemplate: string): nat {
    JobStart(interviewTemplate) + |jobDescription| + |JobFooter| + |Gap| + |ResumeHeading|
  }

  /** The first, middle and last piece of a three-part concatenation. */
  lemma {:induction false} Split(a: string, b: string, c: string)
    ensures (a + b + c)[..|a|] == a
    ensures (a + b + c)[|a|..|a| + |b|] == b
    ensures (a + b + c)[|a| + |b|..] == c
  {
  }

  /*
   * The layout of texts assembled like the prompt, with the fixed pieces left
   * abstract: `d` is the job description and `r` the resume; `x` stands for
   * everything before the job heading and `y` for everything before the
   * resume heading.
   */

  lemma {:induction false} LayoutJob(x: string, jh: string, d: string, jf: string)
    ensures var q := x + jh + d + jf;
      q[|x|..|x| + |jh|] == jh && q[|x| + |jh|..|x| + |jh| + |d|] == d && q[|x| + |jh| + |d|..] == jf
  {
    var q := x + jh + d + jf;
    assert q == (x + jh) + d + jf;
    Split(x + jh, d, jf);
    Split(x, jh, d);
    assert q[..|x| + |jh| + |d|] == x + jh + d;
  }

  /** Regrouping a left-nested concatenation after its first piece. */
  lemma {:induction false} Regroup(q: string, a: string, b: string, c: string, d: string, e: string)
    ensures q + a + b + c + d + e == q + (a + b + c + d + e)
  {
  }

  /** Slicing a prefix is slicing the whole. */
  lemma {:induction false} SliceOfPrefix(q: string, w: string, i: nat, j: nat)
    requires i <= j <= |q|
    ensures (q + w)[i..j] == q[i..j]
  {
  }

  lemma {:induction false} LayoutResume(y: string, rh: string, r: string, rf: string, z: string)
    ensures var p := y + rh + r + rf + z;
      && p[|y|..|y| + |rh|] == rh && p[|y| + |rh|..|y| + |rh| + |r|] == r
      && p[|y| + |rh| + |r|..|y| + |rh| + |r| + |rf|] == rf && p[|y| + |rh| + |r| + |rf|..] == z
  {
    var p := y + rh + r + rf + z;
    assert p == y + rh + (r + rf + z);
    Split(y, rh, r + rf + z);
    assert p == (y + rh) + r + (rf + z);
    Split(y + rh, r, rf + z);
    Split(y + rh + r, rf, z);
  }

  /*
   * The layout of any text assembled from eleven pieces like the prompt:
   * `t` is the template, `d` the job description and `r` the resume, the
   * others stand for the fixed pieces.
   */

  lemma {:induction false} StartPieces(o: string, t: string, i: string, jh: string, d: string, jf: string,
                    g: string, rh: string, r: string, rf: string, z: string)
    ensures var p := o + t + i + jh + d + jf + g + rh + r + rf + z;
      p[..|o|] == o && p[|o|..|o| + |t|] == t
  {
    var rest := i + jh + d + jf + g + rh + r + rf + z;
    assert o + t + i + jh + d + jf + g + rh + r + rf + z == o + t + rest;
    Split(o, t, rest);
  }

  lemma {:induction false} JobPieces(o: string, t: string, i: string, jh: string, d: string, jf: string,
                  g: string, rh: string, r: string, rf: string, z: string)
    ensures var p := o + t + i + jh + d + jf + g + rh + r + rf + z;
      var js := |o| + |t| + |i| + |jh|;
      && p[js - |jh|..js] == jh && p[js..js + |d|] == d && p[js + |d|..js + |d| + |jf|] == jf
  {
    var x := o + t + i;
    var q := x + jh + d + jf;
    var w := g + rh + r + rf + z;
    Regroup(q, g, rh, r, rf, z);
    LayoutJob(x, jh, d, jf);
    var js := |x| + |jh|;
    SliceOfPrefix(q, w, js - |jh|, js);
    SliceOfPrefix(q, w, js, js + |d|);
    SliceOfPrefix(q, w, js + |d|, js + |d| + |jf|);
  }

  lemma {:induction false} ResumePieces(o: string, t: string, i: string, jh: string, d: string, jf: string,
                     g: string, rh: string, r: string, rf: string, z: string)
    ensures var p := o + t + i + jh + d + jf + g + rh + r + rf + z;
      var rs := |o| + |t| + |i| + |jh| + |d| + |jf| + |g| + |rh|;
      && |p| == rs + |r| + |rf| + |z|
      && p[rs - |rh|..rs] == rh && p[rs..rs + |r|] == r
      && p[rs + |r|..rs + |r| + |rf|] == rf && p[rs + |r| + |rf|..] == z
  {
    LayoutResume(o + t + i + jh + d + jf + g, rh, r, rf, z);
  }

  /** The prompt opens with a line break and the template. */
  lemma {:induction false} PromptStartsWithTemplate(resume: string, jobDescription: string, interviewTemplate: string)
    ensures var p := CreateInterviewPrompt(resume, jobDescription, interviewTemplate);
      |p| > |interviewTemplate| && p[0] == '\n' && p[1..|interviewTemplate| + 1] == interviewTemplate
  {
    var p := CreateInterviewPrompt(resume, jobDescription, interviewTemplate);
    StartPieces(Opening, interviewTemplate, Intro, JobHeading, jobDescription, JobFooter, Gap, ResumeHeading, resume, ResumeFooter, Outro);
    assert p[0] == p[..|Opening|][0];
  }

  /** The job description sits verbatim between its heading and its closing line. */
  lemma {:induction false} PromptJobSection(resume: string, jobDescription: string, interviewTemplate: string)
    ensures var p := CreateInterviewPrompt(resume, jobDescription, interviewTemplate);
      var j := JobStart(interviewTemplate);
      && j + |jobDescription| + |JobFooter| <= |p|
      && p[j - |JobHeading|..j] == JobHeading
      && p[j..j + |jobDescription|] == jobDescription
      && p[j + |jobDescription|..j + |jobDescription| + |JobFooter|] == JobFooter
  {
    PieceLengths();
    JobPieces(Opening, interviewTemplate, Intro, JobHeading, jobDescription, JobFooter, Gap, ResumeHeading, resume, ResumeFooter, Outro);
  }

  /** The resume sits verbatim after its heading. */
  lemma {:induction false} PromptResumeSection(resume: string, jobDescription: string, interviewTemplate: string)
    ensures var p := CreateInterviewPrompt(resume, jobDescription, interviewTemplate);
      var r := ResumeStart(jobDescription, interviewTemplate);
      && r + |resume| + |ResumeFooter| + |Outro| == |p|
      && p[r - |ResumeHeading|..r] == ResumeHeading
      && p[r..r + |resume|] == resume
  {
    PieceLengths();
    ResumePieces(Opening, interviewTemplate, Intro, JobHeading, jobDescription, JobFooter, Gap, ResumeHeading, resume, ResumeFooter, Outro);
  }

  /** The resume's closing line follows it, and the closing instruction ends the prompt. */
  lemma {:induction false} PromptClosing(resume: string, jobDescription: string, interviewTemplate: string)
    ensures var p := CreateInterviewPrompt(resume, jobDescription, interviewTemplate);
      var e := ResumeStart(jobDescription, interviewTemplate) + |resume|;
      && e + |ResumeFooter| + |Outro| == |p|
      && p[e..e + |ResumeFooter|] == ResumeFooter
      && p[e + |ResumeFooter|..] == Outro
  {
    PieceLengths();
    ResumePieces(Opening, interviewTemplate, Intro, JobHeading, jobDescription, JobFooter, Gap, ResumeHeading, resume, ResumeFooter, Outro);
  }

  /** The prompt is as long as its three inputs plus a fixed amount. */
  lemma {:induction false} PromptLength(resume: string, jobDescription: string, interviewTemplate: string)
    ensures |CreateInterviewPrompt(resume, jobDescription, interviewTemplate)|
         == |resume| + |jobDescription| + |interviewTemplate|
          + |Opening| + |Intro| + |JobHeading| + |JobFooter| + |Gap| + |ResumeHeading| + |ResumeFooter| + |Outro|
  {
  }

  /** Prompts built from inputs of the same lengths are equal only when the inputs are. */
  lemma {:induction false} PromptDeterminesInputs(resume: string, jobDescription: string, interviewTemplate: string,
                               resume': string, jobDescription': string, interviewTemplate': string)
    requires |resume| == |resume'| && |jobDescription| == |jobDescription'| && |interviewTemplate| == |interviewTemplate'|
    requires CreateInterviewPrompt(resume, jobDescription, interviewTemplate) == CreateInterviewPrompt(resume', jobDescription', interviewTemplate')
    ensures resume == resume' && jobDescription == jobDescription' && interviewTemplate == interviewTemplate'
  {
    PromptStartsWithTemplate(resume, jobDescription, interviewTemplate);
    PromptStartsWithTemplate(resume', jobDescription', interviewTemplate');
    PromptJobSection(resume, jobDescription, interviewTemplate);
    PromptJobSection(resume', jobDescription', interviewTemplate');
    PromptResumeSection(resume, jobDescription, interviewTemplate);
    PromptResumeSection(resume', jobDescription', interviewTemplate');
  }
}
