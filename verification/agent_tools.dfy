/** The two tool functions of `ExamQuestionVerificationAgent` in eqv_agent.py.
    They take the question fields one by one, fill the same templates as the
    verifier, and turn any exception into a text reply instead of raising. */
module AgentTools {
  import opened Wrappers
  import opened Records
  import opened Templates
  import opened Verifier

  /** The text of a tool reply: a heading followed by the model's structured
      output, or a heading followed by the message of the exception that
      interrupted the tool. */
  datatype ToolText = Labelled(heading: string, metadata: Record) | Interrupted(heading: string, cause: Exception)

  const VerifiedLabel := "考试题目核查结果:"
  const VerifyInterruptedLabel := "核查工具调用中断，错误信息："
  const FixedLabel := "修正后的考题:"
  const FixInterruptedLabel := "修正工具调用中断，错误信息："

  /** The prompt `exam_question_verify_tool` fills: its template chain is the
      one of `verify_exam_question`, applied to the raw type argument, and the
      five other arguments fill the slots. */
  function AgentVerificationPrompt(question: string, answer: string, questionType: string,
                                   knowledgePoint: string, knowledgePointDescription: string,
                                   extraRequirement: string): (p: Prompt)
    ensures p == VerificationPrompt(ExamQuestion(question, answer, questionType, knowledgePoint,
                                                 knowledgePointDescription, extraRequirement))
  {
    Prompt(SelectTemplate(questionType), [
      Slot(QuestionKey, question),
      Slot(AnswerKey, answer),
      Slot(KnowledgePointKey, knowledgePoint),
      Slot(KnowledgePointDescriptionKey, knowledgePointDescription),
      Slot(ExtraRequirementKey, extraRequirement)
    ])
  }

  /** `exam_question_verify_tool`: the judgement of the model, or the
      exception that interrupted it, as text. */
  function VerifyToolText(judge: Oracle, n: nat, question: string, answer: string, questionType: string,
                          knowledgePoint: string, knowledgePointDescription: string,
                          extraRequirement: string): (r: ToolText)
    ensures var reply := judge(n, AgentVerificationPrompt(question, answer, questionType, knowledgePoint,
                                                          knowledgePointDescription, extraRequirement));
      && (r.Labelled? <==> reply.Success?)
      && (r.Labelled? ==> r == Labelled(VerifiedLabel, reply.value))
      && (r.Interrupted? ==> r == Interrupted(VerifyInterruptedLabel, reply.error))
  {
    var prompt := AgentVerificationPrompt(question, answer, questionType, knowledgePoint,
                                          knowledgePointDescription, extraRequirement);
    match judge(n, prompt)
    case Success(metadata) => Labelled(VerifiedLabel, metadata)
    case Failure(e) => Interrupted(VerifyInterruptedLabel, e)
  }

  /** The agent's verification tool and the verifier's verification call see
      the same model reply: where the verifier obtains a verdict, the tool's
      text carries the record it came from, and where the verifier's model
      call raises, the tool reports that exception instead of raising it. */
  lemma VerifyToolAgrees(judge: Oracle, n: nat, q: ExamQuestion)
    ensures var r := VerifyToolText(judge, n, q.question, q.answer, q.questionType, q.knowledgePoint,
                                    q.knowledgePointDescription, q.extraRequirement);
      && (VerifyExamQuestion(judge, n, q).Success? ==> r.Labelled? && LoadVerdict(r.metadata) == VerifyExamQuestion(judge, n, q))
      && (r.Interrupted? ==> VerifyExamQuestion(judge, n, q) == Failure(r.cause))
  {
  }

  /** The prompt `exam_question_fix_tool` fills: the fix template with all
      seven arguments, whatever the question type. */
  function AgentFixPrompt(question: string, answer: string, questionType: string,
                          knowledgePoint: string, knowledgePointDescription: string,
                          extraRequirement: string, suggestion: string): (p: Prompt)
    ensures p == FixPrompt(ExamQuestion(question, answer, questionType, knowledgePoint,
                                        knowledgePointDescription, extraRequirement), suggestion)
  {
    Prompt(Fix, [
      Slot(QuestionKey, question),
      Slot(AnswerKey, answer),
      Slot(QuestionTypeKey, questionType),
      Slot(KnowledgePointKey, knowledgePoint),
      Slot(KnowledgePointDescriptionKey, knowledgePointDescription),
      Slot(ExtraRequirementKey, extraRequirement),
      Slot(SuggestionKey, suggestion)
    ])
  }

  /** `exam_question_fix_tool`: the model's rewrite, or the exception that
      interrupted it, as text. There is no verdict argument, so the model is
      always asked. */
  function FixToolText(rewriter: Oracle, n: nat, question: string, answer: string, questionType: string,
                       knowledgePoint: string, knowledgePointDescription: string,
                       extraRequirement: string, suggestion: string): (r: ToolText)
    ensures var reply := rewriter(n, AgentFixPrompt(question, answer, questionType, knowledgePoint,
                                                    knowledgePointDescription, extraRequirement, suggestion));
      && (r.Labelled? <==> reply.Success?)
      && (r.Labelled? ==> r == Labelled(FixedLabel, reply.value))
      && (r.Interrupted? ==> r == Interrupted(FixInterruptedLabel, reply.error))
  {
    var prompt := AgentFixPrompt(question, answer, questionType, knowledgePoint,
                                 knowledgePointDescription, extraRequirement, suggestion);
    match rewriter(n, prompt)
    case Success(metadata) => Labelled(FixedLabel, metadata)
    case Failure(e) => Interrupted(FixInterruptedLabel, e)
  }

  /** The agent's fix tool behaves as the verifier's fix call on a
      non-compliant verdict with the same suggestion: a rewrite the fix call
      accepts is the record the tool reports, and a model failure is reported
      rather than raised. */
  lemma FixToolAgreesOnNonCompliant(rewriter: Oracle, n: nat, q: ExamQuestion, suggestion: string)
    ensures var r := FixToolText(rewriter, n, q.question, q.answer, q.questionType, q.knowledgePoint,
                                 q.knowledgePointDescription, q.extraRequirement, suggestion);
      var fixed := FixExamQuestion(rewriter, n, q, Verdict(false, suggestion));
      && (fixed.Success? ==> r.Labelled? && LoadQuestion(r.metadata) == fixed)
      && (r.Interrupted? ==> fixed == Failure(r.cause))
  {
  }
}
