/** The question generation handler (`POST /api/generateQuestions`): the non-blank job role
    check, the prompt that embeds the role, the outcome, and the reply schema it requests. */
module GenerateQuestionsRoute {
  import opened Common
  import opened Http

  /** The JSON body `{ jobRole }`; None when the body has no `jobRole`. */
  datatype QuestionsRequest = QuestionsRequest(jobRole: Option<string>)

  const MissingRoleMessage: string := "Job role is required"
  const FailureMessage: string := "Failed to generate questions. Please try again."

  const PromptHead: string :=
    "You are an experienced interviewer and hiring manager. Generate 6-7 thoughtful interview questions for a "
  /** The requirements and the requested format after the role (abbreviated). */
  const PromptTail: string := " position. \n\nRequirements:\n...\n\nPlease return only a JSON array of question strings, no additional text."

  function Prompt(jobRole: string): (p: string)
    ensures OccursAt(p, jobRole, |PromptHead|)
  {
    var p := PromptHead + jobRole + PromptTail;
    assert p[|PromptHead|..|PromptHead| + |jobRole|] == jobRole;
    p
  }

  /** `!jobRole || !jobRole.trim()`. */
  predicate RoleMissing(jobRole: Option<string>) {
    jobRole.None? || IsBlank(jobRole.value)
  }

  /** The handler. `body` is Err when `request.json()` throws. */
  function Post(body: Result<QuestionsRequest, string>, ai: AiReply): (o: HandlerResult)
    ensures body.Err? ==> o == Answer(500, FailureMessage)
    ensures body.Ok? && RoleMissing(body.value.jobRole) ==> o == Answer(400, MissingRoleMessage)
    ensures o.aiPrompt.Some? <==> body.Ok? && !RoleMissing(body.value.jobRole)
    ensures o.aiPrompt.Some? ==> o.aiPrompt.value == Prompt(body.value.jobRole.value)
    ensures o.aiPrompt.Some? && ai.Ok? ==> o.response == Response(200, ai.value)
    ensures o.aiPrompt.Some? && ai.Err? ==> o.response == Response(500, ErrorBody(FailureMessage))
  {
    match body
    case Err(_) => Answer(500, FailureMessage)
    case Ok(QuestionsRequest(jobRole)) =>
      if RoleMissing(jobRole) then Answer(400, MissingRoleMessage)
      else AiOutcome(Prompt(jobRole.value), ai, FailureMessage)
  }

  /** The reply schema the handler asks the model for: an object whose `questions` member is
      an array of strings. The handler passes the reply on without checking it. */
  predicate MatchesSchema(reply: Json) {
    var q := Member(reply, "questions");
    q.Some? && q.value.JArray? && forall i :: 0 <= i < |q.value.items| ==> q.value.items[i].JString?
  }
}
