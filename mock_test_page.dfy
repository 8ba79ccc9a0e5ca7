/** The mock interview page (`/mock-test`): a session that runs from setup through testing to
    results, a cursor over the generated questions, the answers kept beside them, and the
    `mockTests` history written after a successful evaluation. */
module MockTest {
  import opened Common
  import opened Http
  import opened Browser
  import History
  import GenerateQuestionsRoute
  import EvaluateAnswersRoute

  datatype Stage = Setup | Testing | Results

  /** A saved test; its `id` and `date` are left out. */
  datatype MockTestRecord = MockTestRecord(jobRole: string, questionsCount: nat, result: Json)

  const EnterRoleMessage: string := "Please enter a job role"
  const ProvideAnswerMessage: string := "Please provide an answer"
  const GeneratePrefix: string := "Failed to generate questions"
  const EvaluatePrefix: string := "Failed to evaluate answers"
  /** The TypeError thrown by `result.questions.length` when the reply has no `questions`. */
  const MissingQuestionsMessage: string := "Cannot read properties of undefined (reading 'length')"

  /** `new Array(n).fill('')`. */
  function EmptyAnswers(n: nat): (r: seq<string>)
    ensures |r| == n && forall i :: 0 <= i < n ==> r[i] == ""
  {
    seq(n, _ => "")
  }

  /** `copy[i] = x` on a copy of `s`: overwrites slot `i`, or appends when `i` is the length. */
  function WriteAt(s: seq<string>, i: nat, x: string): (r: seq<string>)
    requires i <= |s|
    ensures |r| == if i < |s| then |s| else |s| + 1
    ensures r[i] == x
    ensures forall j :: 0 <= j < |s| && j != i ==> r[j] == s[j]
  {
    if i < |s| then s[i := x] else s + [x]
  }

  function StringsOf(items: seq<Json>): (r: seq<string>)
    requires forall i :: 0 <= i < |items| ==> items[i].JString?
    ensures |r| == |items| && forall i :: 0 <= i < |items| ==> r[i] == items[i].s
  {
    seq(|items|, i requires 0 <= i < |items| => items[i].s)
  }

  /** The `questions` of a reply, when the reply has the declared shape. */
  function QuestionsOf(body: Json): (r: Option<seq<string>>)
    ensures r.Some? <==> GenerateQuestionsRoute.MatchesSchema(body)
    ensures r.Some? ==> var items := Member(body, "questions").value.items;
                        |r.value| == |items| && forall i :: 0 <= i < |items| ==> items[i] == JString(r.value[i])
  {
    var q := Member(body, "questions");
    if q.Some? && q.value.JArray? && forall i :: 0 <= i < |q.value.items| ==> q.value.items[i].JString?
    then Some(StringsOf(q.value.items))
    else None
  }

  class MockTestPage {
    var jobRole: string
    var currentQuestion: nat
    var questions: seq<string>
    var answers: seq<string>
    var currentAnswer: string
    var testResults: Option<Json>
    var loading: bool
    var error: Option<string>
    var testStage: Stage
    /** The `mockTests` entry of the browser's storage, newest first. */
    var mockTests: seq<MockTestRecord>

    /** The answers stay beside the questions and the cursor on a question; a session past
        setup has a job role. Without questions, the cursor stays at 0 and at most one
        answer is kept. */
    predicate Valid()
      reads this
    {
      (|questions| > 0 ==> |answers| == |questions| && currentQuestion < |questions|)
      && (questions == [] ==> currentQuestion == 0 && |answers| <= 1)
      && (testStage != Setup ==> !IsBlank(jobRole))
    }

    /** The page as first rendered, over the history already stored. */
    constructor(stored: seq<MockTestRecord>)
      ensures Valid()
      ensures jobRole == "" && currentQuestion == 0 && questions == [] && answers == []
      ensures currentAnswer == "" && testResults.None? && !loading && error.None? && testStage == Setup
      ensures mockTests == stored
    {
      jobRole := "";
      currentQuestion := 0;
      questions := [];
      answers := [];
      currentAnswer := "";
      testResults := None;
      loading := false;
      error := None;
      testStage := Setup;
      mockTests := stored;
    }

    /** The job role input of the setup stage. */
    method SetJobRole(value: string)
      requires Valid() && testStage == Setup
      modifies this`jobRole
      ensures Valid() && jobRole == value
    {
      jobRole := value;
    }

    /** The answer box of the testing stage. */
    method SetCurrentAnswer(value: string)
      requires Valid()
      modifies this`currentAnswer
      ensures Valid() && currentAnswer == value
    {
      currentAnswer := value;
    }

    /** `generateQuestions`: a blank role is refused without a request; otherwise the role is
        sent and, on a well-formed reply, the test starts at the first question with every
        answer empty. `sent` is the `jobRole` of the request, None when none is made. */
    method GenerateQuestions(reply: FetchReply) returns (sent: Option<string>)
      requires Valid() && testStage == Setup
      modifies this
      ensures Valid()
      ensures jobRole == old(jobRole) && currentAnswer == old(currentAnswer)
      ensures testResults == old(testResults) && mockTests == old(mockTests)
      ensures IsBlank(jobRole) ==>
                sent.None? && error == Some(EnterRoleMessage) && loading == old(loading)
                && testStage == Setup && questions == old(questions) && answers == old(answers)
                && currentQuestion == old(currentQuestion)
      ensures !IsBlank(jobRole) ==> sent == Some(jobRole) && !loading
      ensures sent.Some? ==> !GenerateQuestionsRoute.RoleMissing(sent)
      ensures !IsBlank(jobRole) && reply.Delivered? && QuestionsOf(reply.body).Some? ==>
                questions == QuestionsOf(reply.body).value && answers == EmptyAnswers(|questions|)
                && currentQuestion == 0 && testStage == Testing && error.None?
      ensures !IsBlank(jobRole) && !(reply.Delivered? && QuestionsOf(reply.body).Some?) ==>
                testStage == Setup && questions == old(questions) && answers == old(answers)
                && currentQuestion == old(currentQuestion)
      ensures !IsBlank(jobRole) && !reply.Delivered? ==>
                error == Some(FailureText(GeneratePrefix, GeneratePrefix, reply))
      ensures !IsBlank(jobRole) && reply.Delivered? && QuestionsOf(reply.body).None? ==>
                error == Some(MissingQuestionsMessage)
    {
      if IsBlank(jobRole) {
        error := Some(EnterRoleMessage);
        return None;
      }
      loading := true;
      error := None;
      sent := Some(jobRole);
      match reply {
        case Delivered(body) =>
          var qs := QuestionsOf(body);
          if qs.Some? {
            questions := qs.value;
            answers := EmptyAnswers(|qs.value|);
            currentQuestion := 0;
            testStage := Testing;
          } else {
            error := Some(MissingQuestionsMessage);
          }
        case _ =>
          error := Some(FailureText(GeneratePrefix, GeneratePrefix, reply));
      }
      loading := false;
    }

    /** The Previous button: one question back, never below the first. */
    method Previous()
      requires Valid() && testStage == Testing
      modifies this`currentQuestion
      ensures Valid()
      ensures currentQuestion == if old(currentQuestion) == 0 then 0 else old(currentQuestion) - 1
    {
      if currentQuestion > 0 {
        currentQuestion := currentQuestion - 1;
      }
    }

    /** `finishTest`: sends the role, the questions and `finalAnswers`; on success shows the
        results and saves the test as the newest history entry. */
    method FinishTest(finalAnswers: seq<string>, reply: FetchReply) returns (sent: EvaluateAnswersRoute.EvalBody)
      requires Valid() && testStage == Testing
      modifies this`loading, this`error, this`testResults, this`testStage, this`mockTests
      ensures Valid() && !loading
      ensures sent == EvaluateAnswersRoute.EvalBody(Some(jobRole), Some(questions), Some(finalAnswers))
      ensures reply.Delivered? ==>
                testResults == Some(reply.body) && testStage == Results && error == old(error)
                && mockTests == History.Push(old(mockTests), MockTestRecord(jobRole, |questions|, reply.body))
      ensures !reply.Delivered? ==>
                testResults == old(testResults) && testStage == Testing && mockTests == old(mockTests)
                && error == Some(FailureText(EvaluatePrefix, EvaluatePrefix, reply))
    {
      loading := true;
      sent := EvaluateAnswersRoute.EvalBody(Some(jobRole), Some(questions), Some(finalAnswers));
      match reply {
        case Delivered(result) =>
          testResults := Some(result);
          testStage := Results;
          mockTests := History.Push(mockTests, MockTestRecord(jobRole, |questions|, result));
        case _ =>
          error := Some(FailureText(EvaluatePrefix, EvaluatePrefix, reply));
      }
      loading := false;
    }

    /** `submitAnswer`: a blank answer is refused; otherwise it is written into its own slot,
        and the cursor moves on, or, on the last question, the test is sent for evaluation. */
    method SubmitAnswer(reply: FetchReply) returns (sent: Option<EvaluateAnswersRoute.EvalBody>)
      requires Valid() && testStage == Testing
      modifies this
      ensures Valid()
      ensures jobRole == old(jobRole) && questions == old(questions)
      ensures IsBlank(old(currentAnswer)) ==>
                sent.None? && error == Some(ProvideAnswerMessage) && answers == old(answers)
                && currentQuestion == old(currentQuestion) && currentAnswer == old(currentAnswer)
                && testStage == Testing && mockTests == old(mockTests) && loading == old(loading)
                && testResults == old(testResults)
      ensures !IsBlank(old(currentAnswer)) ==>
                answers == WriteAt(old(answers), old(currentQuestion), old(currentAnswer))
                && |answers| == (if questions == [] then 1 else |questions|)
                && currentAnswer == ""
      ensures !IsBlank(old(currentAnswer)) && old(currentQuestion) < |questions| - 1 ==>
                sent.None? && currentQuestion == old(currentQuestion) + 1 && error.None?
                && testStage == Testing && mockTests == old(mockTests) && loading == old(loading)
                && testResults == old(testResults)
      ensures !IsBlank(old(currentAnswer)) && old(currentQuestion) >= |questions| - 1 ==>
                currentQuestion == old(currentQuestion) && !loading
                && sent == Some(EvaluateAnswersRoute.EvalBody(Some(jobRole), Some(questions), Some(answers)))
                && (reply.Delivered? ==>
                      testStage == Results && testResults == Some(reply.body) && error.None?
                      && mockTests == History.Push(old(mockTests), MockTestRecord(jobRole, |questions|, reply.body)))
                && (!reply.Delivered? ==>
                      testStage == Testing && mockTests == old(mockTests) && testResults == old(testResults)
                      && error == Some(FailureText(EvaluatePrefix, EvaluatePrefix, reply)))
      ensures sent.Some? && questions != [] ==> EvaluateAnswersRoute.PassesValidation(sent.value)
    {
      if IsBlank(currentAnswer) {
        error := Some(ProvideAnswerMessage);
        return None;
      }
      var newAnswers := WriteAt(answers, currentQuestion, currentAnswer);
      answers := newAnswers;
      currentAnswer := "";
      error := None;
      if currentQuestion < |questions| - 1 {
        currentQuestion := currentQuestion + 1;
        return None;
      }
      var body := FinishTest(newAnswers, reply);
      sent := Some(body);
    }

    /** `startNewTest`: every field of the session back to its initial value; the history
        and the loading flag are kept. */
    method StartNewTest()
      requires Valid()
      modifies this
      ensures Valid()
      ensures jobRole == "" && currentQuestion == 0 && questions == [] && answers == []
      ensures currentAnswer == "" && testResults.None? && error.None? && testStage == Setup
      ensures mockTests == old(mockTests) && loading == old(loading)
    {
      jobRole := "";
      questions := [];
      answers := [];
      currentAnswer := "";
      currentQuestion := 0;
      testResults := None;
      testStage := Setup;
      error := None;
    }
  }

  /** An empty question list is the one way the page sends mismatched lengths: the first
      submitted answer is appended, and the handler answers 400 without calling the model. */
  lemma EmptyQuestionListMismatch(jobRole: string, answer: string, ai: AiReply)
    requires jobRole != ""
    ensures EvaluateAnswersRoute.Post(
              Ok(EvaluateAnswersRoute.EvalBody(Some(jobRole), Some([]), Some(WriteAt([], 0, answer)))), ai)
            == Answer(400, EvaluateAnswersRoute.MismatchMessage)
  {
  }
}
