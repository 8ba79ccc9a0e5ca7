/** The answer evaluation handler (`POST /api/evaluateAnswers`): the presence and length
    checks, the question-and-answer text sent to the AI model, and the outcome. */
module EvaluateAnswersRoute {
  import opened Common
  import opened Http

  /** The JSON body `{ jobRole, questions, answers }`; a missing field is None. */
  datatype EvalBody = EvalBody(jobRole: Option<string>, questions: Option<seq<string>>, answers: Option<seq<string>>)

  const RequiredMessage: string := "Job role, questions, and answers are required"
  const MismatchMessage: string := "Number of questions and answers must match"
  const FailureMessage: string := "Failed to evaluate answers. Please try again."

  const PromptHead: string :=
    "You are an expert interviewer and career coach. Evaluate the following interview responses for a "
  const PromptMiddle: string := " position.\n\n"
  /** The requested fields and the instructions after the answers (abbreviated). */
  const PromptTail: string := "\n\nPlease provide a comprehensive evaluation in JSON format with: ...\n\nRespond only with valid JSON."

  const QuestionWord: string := "Question "
  const NumberEnd: string := ": "
  const AnswerWord: string := "\nAnswer: "

  /** The text for the question at index `i` and its answer, numbered from 1. */
  function Block(i: nat, q: string, a: string): string {
    QuestionWord + NatToString(i + 1) + NumberEnd + q + AnswerWord + a + "\n"
  }

  /** A block reads "Question ", the number `i + 1`, ": ", the question, a new line,
      "Answer: ", the answer and a final new line, with nothing else in between. */
  lemma BlockLayout(i: nat, q: string, a: string)
    ensures OccursAt(Block(i, q, a), QuestionWord, 0)
    ensures OccursAt(Block(i, q, a), NatToString(i + 1), |QuestionWord|)
    ensures OccursAt(Block(i, q, a), q, |QuestionWord| + |NatToString(i + 1)| + |NumberEnd|)
    ensures OccursAt(Block(i, q, a), a, |QuestionWord| + |NatToString(i + 1)| + |NumberEnd| + |q| + |AnswerWord|)
    ensures |Block(i, q, a)| == |QuestionWord| + |NatToString(i + 1)| + |NumberEnd| + |q| + |AnswerWord| + |a| + 1
    ensures Block(i, q, a)[|Block(i, q, a)| - 1] == '\n'
  {
    var n := NatToString(i + 1);
    var b := Block(i, q, a);
    assert b[..|QuestionWord|] == QuestionWord;
    assert b[|QuestionWord|..|QuestionWord| + |n|] == n;
    var k := |QuestionWord| + |n| + |NumberEnd|;
    assert b[k..k + |q|] == q;
    assert b[k + |q| + |AnswerWord|..k + |q| + |AnswerWord| + |a|] == a;
  }

  /** `questions.map((question, index) => ...)`: one block per question. */
  function Blocks(questions: seq<string>, answers: seq<string>): (bs: seq<string>)
    requires |questions| == |answers|
  {
    seq(|questions|, i requires 0 <= i < |questions| => Block(i, questions[i], answers[i]))
  }

  /** `xs.join(sep)`. */
  function Join(xs: seq<string>, sep: string): string {
    if xs == [] then ""
    else if |xs| == 1 then xs[0]
    else Join(xs[..|xs| - 1], sep) + sep + xs[|xs| - 1]
  }

  /** Where element `i` of `xs` starts in a join with `sep`: the lengths of the elements
      before it, each followed by one separator. */
  function Offset(xs: seq<string>, sep: string, i: nat): nat
    requires i <= |xs|
  {
    if i == 0 then 0 else Offset(xs, sep, i - 1) + |xs[i - 1]| + |sep|
  }

  lemma OffsetPrefix(xs: seq<string>, sep: string, n: nat, i: nat)
    requires i <= n <= |xs|
    ensures Offset(xs[..n], sep, i) == Offset(xs, sep, i)
  {
    if i > 0 {
      OffsetPrefix(xs, sep, n, i - 1);
      assert xs[..n][i - 1] == xs[i - 1];
    }
  }

  lemma OccursInLonger(a: string, b: string, needle: string, k: int)
    requires OccursAt(a, needle, k)
    ensures OccursAt(a + b, needle, k)
  {
    assert (a + b)[k..k + |needle|] == a[k..k + |needle|];
  }

  /** A join is as long as its elements and the separators between them. */
  lemma {:induction false} JoinLength(xs: seq<string>, sep: string)
    requires xs != []
    ensures |Join(xs, sep)| == Offset(xs, sep, |xs| - 1) + |xs[|xs| - 1]|
  {
    if |xs| > 1 {
      var init := xs[..|xs| - 1];
      JoinLength(init, sep);
      OffsetPrefix(xs, sep, |xs| - 1, |xs| - 2);
    }
  }

  /** A join of two or more elements is the join of all but the last, one separator and the
      last element, which starts at its offset. */
  lemma JoinLast(xs: seq<string>, sep: string)
    requires |xs| > 1
    ensures Join(xs, sep) == Join(xs[..|xs| - 1], sep) + sep + xs[|xs| - 1]
    ensures |Join(xs[..|xs| - 1], sep)| + |sep| == Offset(xs, sep, |xs| - 1)
  {
    var init := xs[..|xs| - 1];
    JoinLength(init, sep);
    OffsetPrefix(xs, sep, |xs| - 1, |xs| - 2);
    assert init[|init| - 1] == xs[|xs| - 2];
  }

  /** Every element sits at its offset, in order. */
  lemma {:induction false} JoinAt(xs: seq<string>, sep: string, i: nat)
    requires i < |xs|
    ensures OccursAt(Join(xs, sep), xs[i], Offset(xs, sep, i))
  {
    var j := Join(xs, sep);
    if |xs| == 1 {
      assert j[0..|xs[0]|] == xs[0];
    } else {
      var init, last := xs[..|xs| - 1], xs[|xs| - 1];
      var ji := Join(init, sep);
      JoinLast(xs, sep);
      if i == |xs| - 1 {
        assert j[|ji| + |sep|..|ji| + |sep| + |last|] == last;
      } else {
        JoinAt(init, sep, i);
        OffsetPrefix(xs, sep, |xs| - 1, i);
        assert init[i] == xs[i];
        OccursInLonger(ji, sep + last, xs[i], Offset(xs, sep, i));
        assert ji + (sep + last) == j;
      }
    }
  }

  /** Exactly one separator follows each element but the last; with `JoinAt` and
      `JoinLength` this leaves no room for anything else. */
  lemma {:induction false} JoinSeparatorAt(xs: seq<string>, sep: string, i: nat)
    requires i + 1 < |xs|
    ensures OccursAt(Join(xs, sep), sep, Offset(xs, sep, i) + |xs[i]|)
  {
    var j := Join(xs, sep);
    var init, last := xs[..|xs| - 1], xs[|xs| - 1];
    var ji := Join(init, sep);
    JoinLast(xs, sep);
    OffsetPrefix(xs, sep, |xs| - 1, i);
    assert init[i] == xs[i];
    assert ji + (sep + last) == j;
    if i + 1 < |init| {
      JoinSeparatorAt(init, sep, i);
      OccursInLonger(ji, sep + last, sep, Offset(xs, sep, i) + |xs[i]|);
    } else {
      JoinLength(init, sep);
      assert j[|ji|..|ji| + |sep|] == sep;
    }
  }

  /** `qaText`: the blocks joined with a single newline. */
  function QaText(questions: seq<string>, answers: seq<string>): string
    requires |questions| == |answers|
  {
    Join(Blocks(questions, answers), "\n")
  }

  /** The question-and-answer text holds the block of index `i` at the offset the earlier
      blocks and one newline each leave for it. */
  lemma QaTextBlockAt(questions: seq<string>, answers: seq<string>, i: nat)
    requires |questions| == |answers| && i < |questions|
    ensures OccursAt(QaText(questions, answers), Block(i, questions[i], answers[i]),
                     Offset(Blocks(questions, answers), "\n", i))
  {
    var bs := Blocks(questions, answers);
    assert bs[i] == Block(i, questions[i], answers[i]);
    JoinAt(bs, "\n", i);
  }

  /** A single newline follows every block but the last; with `QaTextBlockAt` and
      `QaTextLength` this leaves room for nothing else. */
  lemma QaTextSeparatorAt(questions: seq<string>, answers: seq<string>, i: nat)
    requires |questions| == |answers| && i + 1 < |questions|
    ensures OccursAt(QaText(questions, answers), "\n",
                     Offset(Blocks(questions, answers), "\n", i) + |Block(i, questions[i], answers[i])|)
  {
    var bs := Blocks(questions, answers);
    assert bs[i] == Block(i, questions[i], answers[i]);
    JoinSeparatorAt(bs, "\n", i);
  }

  /** The text ends with the last block: it is empty without questions. */
  lemma QaTextLength(questions: seq<string>, answers: seq<string>)
    requires |questions| == |answers|
    ensures questions != [] ==>
              |QaText(questions, answers)| == Offset(Blocks(questions, answers), "\n", |questions| - 1)
                     + |Block(|questions| - 1, questions[|questions| - 1], answers[|questions| - 1])|
    ensures questions == [] ==> QaText(questions, answers) == ""
  {
    var bs := Blocks(questions, answers);
    if bs != [] {
      assert bs[|bs| - 1] == Block(|questions| - 1, questions[|questions| - 1], answers[|questions| - 1]);
      JoinLength(bs, "\n");
    }
  }

  /** The evaluation prompt: the role, then the question-and-answer text. */
  function Prompt(jobRole: string, qaText: string): (p: string)
    ensures OccursAt(p, jobRole, |PromptHead|)
    ensures OccursAt(p, qaText, |PromptHead| + |jobRole| + |PromptMiddle|)
  {
    var p := PromptHead + jobRole + PromptMiddle + qaText + PromptTail;
    assert p[|PromptHead|..|PromptHead| + |jobRole|] == jobRole;
    var k := |PromptHead| + |jobRole| + |PromptMiddle|;
    assert p[k..k + |qaText|] == qaText;
    p
  }

  /** The checks a body must pass before the AI model is called. */
  predicate PassesValidation(body: EvalBody) {
    TruthyString(body.jobRole) && body.questions.Some? && body.answers.Some?
    && |body.questions.value| == |body.answers.value|
  }

  /** The handler. `body` is Err when `request.json()` throws. */
  function Post(body: Result<EvalBody, string>, ai: AiReply): (o: HandlerResult)
    ensures body.Err? ==> o == Answer(500, FailureMessage)
    ensures body.Ok? && (!TruthyString(body.value.jobRole) || body.value.questions.None? || body.value.answers.None?) ==>
              o == Answer(400, RequiredMessage)
    ensures body.Ok? && TruthyString(body.value.jobRole) && body.value.questions.Some? && body.value.answers.Some?
            && |body.value.questions.value| != |body.value.answers.value| ==>
              o == Answer(400, MismatchMessage)
    ensures o.aiPrompt.Some? <==> body.Ok? && PassesValidation(body.value)
    ensures o.aiPrompt.Some? ==>
              o.aiPrompt.value == Prompt(body.value.jobRole.value,
                                         QaText(body.value.questions.value, body.value.answers.value))
    ensures o.aiPrompt.Some? && ai.Ok? ==> o.response == Response(200, ai.value)
    ensures o.aiPrompt.Some? && ai.Err? ==> o.response == Response(500, ErrorBody(FailureMessage))
  {
    match body
    case Err(_) => Answer(500, FailureMessage)
    case Ok(EvalBody(jobRole, questions, answers)) =>
      if !TruthyString(jobRole) || questions.None? || answers.None? then Answer(400, RequiredMessage)
      else if |questions.value| != |answers.value| then Answer(400, MismatchMessage)
      else AiOutcome(Prompt(jobRole.value, QaText(questions.value, answers.value)), ai, FailureMessage)
  }

  /** Block numbers are distinct, so each numbered block names exactly one question. */
  lemma BlockNumbersDistinct(i: nat, j: nat, q: string, a: string, q': string, a': string)
    requires i != j
    ensures Block(i, q, a)[|QuestionWord|..|QuestionWord| + |NatToString(i + 1)|]
            != Block(j, q', a')[|QuestionWord|..|QuestionWord| + |NatToString(j + 1)|]
  {
    BlockLayout(i, q, a);
    BlockLayout(j, q', a');
    if NatToString(i + 1) == NatToString(j + 1) { NatToStringInjective(i + 1, j + 1); }
  }
}
