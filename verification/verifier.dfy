/** `ExamQuestionVerification` of exam_question_verification.py: one
    verification call, one fix call, their tool-function variants, and the
    `main` loop that alternates them until a question complies or the budget
    of attempts is spent. */
module Verifier {
  import opened Wrappers
  import opened Records
  import opened QuestionType
  import opened Templates

  /** A language model asked for structured output: given how many calls of
      this kind came before and the prompt, it answers with the metadata
      record of its reply or raises. */
  type Oracle = (nat, Prompt) -> Result<Record, Exception>

  /** `verify_exam_question`: ask the model to judge the question and build a
      `VerificationResult` from its reply. */
  function VerifyExamQuestion(judge: Oracle, n: nat, q: ExamQuestion): (r: Result<Verdict, Exception>)
    ensures judge(n, VerificationPrompt(q)).Failure? ==> r == Failure(judge(n, VerificationPrompt(q)).error)
    ensures judge(n, VerificationPrompt(q)).Success? ==> r == LoadVerdict(judge(n, VerificationPrompt(q)).value)
    ensures r.Success? <==> judge(n, VerificationPrompt(q)).Success? && LoadVerdict(judge(n, VerificationPrompt(q)).value).Success?
  {
    match judge(n, VerificationPrompt(q))
    case Failure(e) => Failure(e)
    case Success(metadata) => LoadVerdict(metadata)
  }

  /** `fix_exam_question`: a compliant verdict returns the question as it is;
      otherwise the model rewrites it from the fix prompt. */
  function FixExamQuestion(rewriter: Oracle, n: nat, q: ExamQuestion, v: Verdict): (r: Result<ExamQuestion, Exception>)
    ensures v.compliant ==> r == Success(q)
    ensures !v.compliant && rewriter(n, FixPrompt(q, v.suggestion)).Failure? ==> r == Failure(rewriter(n, FixPrompt(q, v.suggestion)).error)
    ensures !v.compliant && rewriter(n, FixPrompt(q, v.suggestion)).Success? ==>
      r == LoadQuestion(rewriter(n, FixPrompt(q, v.suggestion)).value)
    ensures !v.compliant ==>
      (r.Success? <==> rewriter(n, FixPrompt(q, v.suggestion)).Success? && HasTextFields(rewriter(n, FixPrompt(q, v.suggestion)).value))
  {
    if v.compliant then Success(q)
    else
      match rewriter(n, FixPrompt(q, v.suggestion))
      case Failure(e) => Failure(e)
      case Success(metadata) => LoadQuestion(metadata)
  }

  /** `fix_exam_question` as written: its first step reads the flag as
      `verification_result.Compliance`, a name `VerificationResult` does not
      declare, so every call raises before the model is asked. */
  function FixExamQuestionAsWritten(rewriter: Oracle, n: nat, q: ExamQuestion, v: Verdict): (r: Result<ExamQuestion, Exception>)
    ensures r == Failure(MissingAttribute(ComplianceAttribute))
  {
    ComplianceNotDeclared(v);
    match VerdictAttribute(v, ComplianceAttribute)
    case Failure(e) => Failure(e)
    case Success(flag) =>
      if Truthy(flag) then Success(q)
      else
        match rewriter(n, FixPrompt(q, v.suggestion))
        case Failure(e) => Failure(e)
        case Success(metadata) => LoadQuestion(metadata)
  }

  /** A compliant verdict never reaches the model: any two rewriters give the
      same result. */
  lemma CompliantFixSkipsModel(r1: Oracle, r2: Oracle, n: nat, q: ExamQuestion, v: Verdict)
    requires v.compliant
    ensures FixExamQuestion(r1, n, q, v) == FixExamQuestion(r2, n, q, v) == Success(q)
  {
  }

  /** The text a tool function hands back to the agent: the question and the
      model's judgement side by side, or one dumped record. */
  datatype ToolReply = Report(question: Record, verdict: Record) | Dumped(record: Record)

  /** `verify_exam_question_tool`: like the verification call but with its own
      template chain, and the model's reply is passed on without building a
      `VerificationResult` from it. */
  function VerifyTool(judge: Oracle, n: nat, q: ExamQuestion): (r: Result<ToolReply, Exception>)
    ensures judge(n, ToolVerificationPrompt(q)).Failure? ==> r == Failure(judge(n, ToolVerificationPrompt(q)).error)
    ensures judge(n, ToolVerificationPrompt(q)).Success? ==>
      r == Success(Report(DumpQuestion(q), judge(n, ToolVerificationPrompt(q)).value))
  {
    match judge(n, ToolVerificationPrompt(q))
    case Failure(e) => Failure(e)
    case Success(metadata) => Success(Report(DumpQuestion(q), metadata))
  }

  /** Outside the short answer tags the verification tool sends the very
      prompt of the verification call: the tool fails exactly when the call's
      model fails, and otherwise reports the reply the call's verdict is
      loaded from. */
  lemma VerifyToolAgrees(judge: Oracle, n: nat, q: ExamQuestion)
    requires !IsTagOf(q.questionType, BriefAnswer)
    ensures ToolVerificationPrompt(q) == VerificationPrompt(q)
    ensures VerifyTool(judge, n, q).Failure? <==> judge(n, VerificationPrompt(q)).Failure?
    ensures VerifyExamQuestion(judge, n, q).Success? ==>
      VerifyTool(judge, n, q).Success? && LoadVerdict(VerifyTool(judge, n, q).value.verdict) == VerifyExamQuestion(judge, n, q)
    ensures VerifyTool(judge, n, q).Failure? ==> VerifyExamQuestion(judge, n, q) == Failure(VerifyTool(judge, n, q).error)
  {
    ToolSelectionDiverges(q.questionType);
  }

  /** `fix_exam_question_tool`: a compliant verdict hands back the dumped
      question unchanged; otherwise the model's rewrite is passed on as it is. */
  function FixTool(rewriter: Oracle, n: nat, q: ExamQuestion, v: Verdict): (r: Result<ToolReply, Exception>)
    ensures v.compliant ==> r == Success(Dumped(DumpQuestion(q)))
    ensures !v.compliant && rewriter(n, FixPrompt(q, v.suggestion)).Success? ==>
      r == Success(Dumped(rewriter(n, FixPrompt(q, v.suggestion)).value))
    ensures !v.compliant && rewriter(n, FixPrompt(q, v.suggestion)).Failure? ==>
      r == Failure(rewriter(n, FixPrompt(q, v.suggestion)).error)
  {
    if v.compliant then Success(Dumped(DumpQuestion(q)))
    else
      match rewriter(n, FixPrompt(q, v.suggestion))
      case Failure(e) => Failure(e)
      case Success(metadata) => Success(Dumped(metadata))
  }

  /** `fix_exam_question_tool` as written: it reads the flag as
      `verification_result.Compliance` before anything else, so every call
      raises. */
  function FixToolAsWritten(rewriter: Oracle, n: nat, q: ExamQuestion, v: Verdict): (r: Result<ToolReply, Exception>)
    ensures r == Failure(MissingAttribute(ComplianceAttribute))
  {
    ComplianceNotDeclared(v);
    match VerdictAttribute(v, ComplianceAttribute)
    case Failure(e) => Failure(e)
    case Success(flag) =>
      if Truthy(flag) then Success(Dumped(DumpQuestion(q)))
      else
        match rewriter(n, FixPrompt(q, v.suggestion))
        case Failure(e) => Failure(e)
        case Success(metadata) => Success(Dumped(metadata))
  }

  /** The tool and the plain fix call agree: whenever the fix call produces a
      question, the tool hands back a record that loads as that question. */
  lemma FixToolAgrees(rewriter: Oracle, n: nat, q: ExamQuestion, v: Verdict)
    requires FixExamQuestion(rewriter, n, q, v).Success?
    ensures FixTool(rewriter, n, q, v).Success? && FixTool(rewriter, n, q, v).value.Dumped?
    ensures LoadQuestion(FixTool(rewriter, n, q, v).value.record) == FixExamQuestion(rewriter, n, q, v)
  {
    if v.compliant {
      LoadDumpQuestion(q);
    }
  }

  /** One verification call of the loop, seen from the loop: the `n`-th
      call judges a question and produces a verdict or raises. */
  type VerifyStep = (nat, ExamQuestion) -> Result<Verdict, Exception>

  /** One fix call of the loop: the `n`-th call rewrites a question given its
      verdict, or raises. */
  type FixStep = (nat, ExamQuestion, Verdict) -> Result<ExamQuestion, Exception>

  /** The verification step `main` uses, built on a judging model. */
  function Verification(judge: Oracle): VerifyStep {
    (n: nat, q: ExamQuestion) => VerifyExamQuestion(judge, n, q)
  }

  /** The fix step as written. */
  function FixingAsWritten(rewriter: Oracle): FixStep {
    (n: nat, q: ExamQuestion, v: Verdict) => FixExamQuestionAsWritten(rewriter, n, q, v)
  }

  /** The fix step `main` uses, built on a rewriting model. */
  function Fixing(rewriter: Oracle): FixStep {
    (n: nat, q: ExamQuestion, v: Verdict) => FixExamQuestion(rewriter, n, q, v)
  }

  /** What a fix call received: the question and the verdict just produced
      for it. */
  datatype FixCall = FixCall(question: ExamQuestion, verdict: Verdict)

  /** How the loop ended: a compliant verdict, the budget spent, or an
      exception escaping one of the calls. */
  datatype Ending = Compliant | Exhausted | Raised(error: Exception)

  /** A run of `main`: the question history and the verdict history, the
      inputs of every verification call and every fix call, in call order, and
      how it ended. */
  datatype Run = Run(
    history: seq<ExamQuestion>,
    verdicts: seq<Verdict>,
    judged: seq<ExamQuestion>,
    fixed: seq<FixCall>,
    ending: Ending)

  /** What `main` returns or raises: the newest question of the history. */
  function Outcome(run: Run): (r: Result<ExamQuestion, Exception>)
    requires |run.history| > 0
    ensures run.ending.Raised? <==> r.Failure?
    ensures r.Failure? ==> r.error == run.ending.error
    ensures r.Success? ==> r.value == run.history[|run.history| - 1]
  {
    if run.ending.Raised? then Failure(run.ending.error) else Success(run.history[|run.history| - 1])
  }

  /** How many iterations `range(budget)` allows. */
  function Rounds(budget: int): (n: nat)
    ensures n <= budget || n == 0
    ensures budget > 0 ==> n == budget
  {
    if budget < 0 then 0 else budget
  }

  /** The loop of `main` from the start of iteration `|verdicts|` on: the
      history so far holds one more question than there were iterations, and
      every iteration so far made one verification call and one fix call. */
  function Loop(verify: VerifyStep, fix: FixStep, budget: int,
                history: seq<ExamQuestion>, verdicts: seq<Verdict>,
                judged: seq<ExamQuestion>, fixed: seq<FixCall>): Run
    requires |history| == |verdicts| + 1 && |judged| == |verdicts| && |fixed| == |verdicts|
    decreases budget - |verdicts|
  {
    var i := |verdicts|;
    if i >= budget then Run(history, verdicts, judged, fixed, Exhausted)
    else
      var q := history[|history| - 1];
      match verify(i, q)
      case Failure(e) => Run(history, verdicts, judged + [q], fixed, Raised(e))
      case Success(v) =>
        if v.compliant then Run(history, verdicts + [v], judged + [q], fixed, Compliant)
        else
          match fix(i, q, v)
          case Failure(e) => Run(history, verdicts + [v], judged + [q], fixed + [FixCall(q, v)], Raised(e))
          case Success(next) =>
            Loop(verify, fix, budget, history + [next], verdicts + [v], judged + [q], fixed + [FixCall(q, v)])
  }

  /** The loop only ever appends to the history. */
  lemma {:induction false} LoopKeepsHistory(verify: VerifyStep, fix: FixStep, budget: int,
                                            history: seq<ExamQuestion>, verdicts: seq<Verdict>,
                                            judged: seq<ExamQuestion>, fixed: seq<FixCall>)
    requires |history| == |verdicts| + 1 && |judged| == |verdicts| && |fixed| == |verdicts|
    ensures history <= Loop(verify, fix, budget, history, verdicts, judged, fixed).history
    decreases budget - |verdicts|
  {
    var i := |verdicts|;
    if i < budget {
      var q := history[|history| - 1];
      if verify(i, q).Success? && !verify(i, q).value.compliant && fix(i, q, verify(i, q).value).Success? {
        var v := verify(i, q).value;
        LoopKeepsHistory(verify, fix, budget, history + [fix(i, q, v).value], verdicts + [v], judged + [q], fixed + [FixCall(q, v)]);
      }
    }
  }

  /** The loop of `main` on question `q` with `budget` attempts. */
  function MainLoop(verify: VerifyStep, fix: FixStep, q: ExamQuestion, budget: int): (r: Run)
    ensures |r.history| >= 1 && r.history[0] == q
  {
    LoopKeepsHistory(verify, fix, budget, [q], [], [], []);
    Loop(verify, fix, budget, [q], [], [], [])
  }

  /** `main` with its verification and fix calls. */
  function VerifyFix(judge: Oracle, rewriter: Oracle, q: ExamQuestion, budget: int): Run {
    MainLoop(Verification(judge), Fixing(rewriter), q, budget)
  }

  /** The loop of `main` as written, from iteration `i` on the newest
      question `current`: the flag of each verdict is read as
      `verification_result.Compliance` and tested with `bool`. */
  function LoopAsWritten(verify: VerifyStep, fix: FixStep, budget: int, i: nat, current: ExamQuestion): Result<ExamQuestion, Exception>
    decreases budget - i
  {
    if i >= budget then Success(current)
    else
      match verify(i, current)
      case Failure(e) => Failure(e)
      case Success(v) =>
        match VerdictAttribute(v, ComplianceAttribute)
        case Failure(e) => Failure(e)
        case Success(flag) =>
          if Truthy(flag) then Success(current)
          else
            match fix(i, current, v)
            case Failure(e) => Failure(e)
            case Success(next) => LoopAsWritten(verify, fix, budget, i + 1, next)
  }

  /** `main` as written. */
  function MainAsWritten(verify: VerifyStep, fix: FixStep, q: ExamQuestion, budget: int): Result<ExamQuestion, Exception> {
    LoopAsWritten(verify, fix, budget, 0, q)
  }

  /** As written, `main` never gets past its first verdict: reading the flag
      raises, so with a positive budget it raises after one verification
      call, even where the loop that reads the declared flag returns the
      question judged compliant. */
  lemma MainAsWrittenRaises(verify: VerifyStep, fix: FixStep, q: ExamQuestion, budget: int)
    ensures budget <= 0 ==> MainAsWritten(verify, fix, q, budget) == Success(q)
    ensures budget > 0 && verify(0, q).Failure? ==> MainAsWritten(verify, fix, q, budget) == Failure(verify(0, q).error)
    ensures budget > 0 && verify(0, q).Success? ==>
      MainAsWritten(verify, fix, q, budget) == Failure(MissingAttribute(ComplianceAttribute))
    ensures budget > 0 && verify(0, q).Success? && verify(0, q).value.compliant ==>
      Outcome(MainLoop(verify, fix, q, budget)) == Success(q)
  {
    if budget > 0 && verify(0, q).Success? {
      ComplianceNotDeclared(verify(0, q).value);
    }
  }

  /** The facts every state of the loop keeps: the history starts from the
      input; verification call `i` judged the newest question of its time,
      `history[i]`, and produced `verdicts[i]`; fix call `i` received that
      same question with that non-compliant verdict and produced
      `history[i + 1]`. */
  predicate Calls(verify: VerifyStep, fix: FixStep, q: ExamQuestion, run: Run) {
    && |run.history| >= 1 && run.history[0] == q
    && |run.fixed| <= |run.verdicts| <= |run.judged| <= |run.history| <= |run.fixed| + 1
    && (forall i :: 0 <= i < |run.judged| ==> run.judged[i] == run.history[i])
    && (forall i :: 0 <= i < |run.verdicts| ==> verify(i, run.history[i]) == Success(run.verdicts[i]))
    && (forall i :: 0 <= i < |run.fixed| ==>
          run.fixed[i] == FixCall(run.history[i], run.verdicts[i]) && !run.verdicts[i].compliant)
    && (forall i :: 0 <= i < |run.history| - 1 ==> fix(i, run.history[i], run.verdicts[i]) == Success(run.history[i + 1]))
  }

  /** How each ending leaves the call counts, and which call ended the loop. */
  predicate Ended(verify: VerifyStep, fix: FixStep, budget: int, run: Run)
    requires |run.history| >= 1 && |run.fixed| <= |run.verdicts| <= |run.judged| <= |run.history|
  {
    var n := |run.judged|;
    && n <= Rounds(budget)
    && match run.ending
       case Compliant =>
         && n == |run.verdicts| == |run.fixed| + 1 == |run.history|
         && run.verdicts[n - 1].compliant
       case Exhausted =>
         && n == |run.verdicts| == |run.fixed| == |run.history| - 1
         && n == Rounds(budget)
       case Raised(e) =>
         || (&& n == |run.verdicts| + 1 == |run.fixed| + 1 == |run.history|
             && verify(n - 1, run.history[n - 1]) == Failure(e))
         || (&& n == |run.verdicts| == |run.fixed| == |run.history|
             && fix(n - 1, run.history[n - 1], run.verdicts[n - 1]) == Failure(e))
  }

  /** A run of `main` as the source describes it. */
  predicate Consistent(verify: VerifyStep, fix: FixStep, q: ExamQuestion, budget: int, run: Run) {
    Calls(verify, fix, q, run) && Ended(verify, fix, budget, run)
  }

  /** A state of the loop between iterations. */
  predicate Between(verify: VerifyStep, fix: FixStep, q: ExamQuestion, budget: int,
                    history: seq<ExamQuestion>, verdicts: seq<Verdict>,
                    judged: seq<ExamQuestion>, fixed: seq<FixCall>)
  {
    && |history| == |verdicts| + 1 && |judged| == |verdicts| && |fixed| == |verdicts|
    && |verdicts| <= Rounds(budget)
    && Calls(verify, fix, q, Run(history, verdicts, judged, fixed, Exhausted))
  }

  /** One full iteration keeps the facts. */
  lemma BetweenStep(verify: VerifyStep, fix: FixStep, q: ExamQuestion, budget: int,
                    history: seq<ExamQuestion>, verdicts: seq<Verdict>,
                    judged: seq<ExamQuestion>, fixed: seq<FixCall>, v: Verdict, next: ExamQuestion)
    requires Between(verify, fix, q, budget, history, verdicts, judged, fixed)
    requires |verdicts| < budget
    requires verify(|verdicts|, history[|history| - 1]) == Success(v) && !v.compliant
    requires fix(|verdicts|, history[|history| - 1], v) == Success(next)
    ensures Between(verify, fix, q, budget, history + [next], verdicts + [v],
                    judged + [history[|history| - 1]], fixed + [FixCall(history[|history| - 1], v)])
  {
  }

  /** An iteration that stops the loop leaves a run that fits the description. */
  lemma LastStep(verify: VerifyStep, fix: FixStep, q: ExamQuestion, budget: int,
                 history: seq<ExamQuestion>, verdicts: seq<Verdict>,
                 judged: seq<ExamQuestion>, fixed: seq<FixCall>)
    requires Between(verify, fix, q, budget, history, verdicts, judged, fixed)
    requires |verdicts| < budget
    requires var cur := history[|history| - 1];
      || verify(|verdicts|, cur).Failure?
      || (verify(|verdicts|, cur).Success? && verify(|verdicts|, cur).value.compliant)
      || (verify(|verdicts|, cur).Success? && fix(|verdicts|, cur, verify(|verdicts|, cur).value).Failure?)
    ensures Consistent(verify, fix, q, budget, Loop(verify, fix, budget, history, verdicts, judged, fixed))
  {
  }

  lemma {:induction false} LoopConsistent(verify: VerifyStep, fix: FixStep, q: ExamQuestion, budget: int,
                                          history: seq<ExamQuestion>, verdicts: seq<Verdict>,
                                          judged: seq<ExamQuestion>, fixed: seq<FixCall>)
    requires Between(verify, fix, q, budget, history, verdicts, judged, fixed)
    ensures Consistent(verify, fix, q, budget, Loop(verify, fix, budget, history, verdicts, judged, fixed))
    decreases budget - |verdicts|
  {
    var i := |verdicts|;
    if i < budget {
      var cur := history[|history| - 1];
      var verdict := verify(i, cur);
      if verdict.Success? && !verdict.value.compliant && fix(i, cur, verdict.value).Success? {
        var v, next := verdict.value, fix(i, cur, verdict.value).value;
        BetweenStep(verify, fix, q, budget, history, verdicts, judged, fixed, v, next);
        LoopConsistent(verify, fix, q, budget, history + [next], verdicts + [v], judged + [cur], fixed + [FixCall(cur, v)]);
      } else {
        LastStep(verify, fix, q, budget, history, verdicts, judged, fixed);
      }
    }
  }

  /** Every run of `main` fits the description. */
  lemma MainLoopConsistent(verify: VerifyStep, fix: FixStep, q: ExamQuestion, budget: int)
    ensures Consistent(verify, fix, q, budget, MainLoop(verify, fix, q, budget))
  {
    LoopConsistent(verify, fix, q, budget, [q], [], [], []);
  }

  /** The verifier is called at most `budget` times (never for a budget that
      is not positive), and the fixer never more often than the verifier. */
  lemma CallBudget(verify: VerifyStep, fix: FixStep, q: ExamQuestion, budget: int)
    ensures var run := MainLoop(verify, fix, q, budget);
      && |run.judged| <= Rounds(budget)
      && |run.fixed| <= |run.judged|
  {
    MainLoopConsistent(verify, fix, q, budget);
  }

  /** With no attempts allowed nothing is called and the input comes back. */
  lemma ZeroBudget(verify: VerifyStep, fix: FixStep, q: ExamQuestion, budget: int)
    requires budget <= 0
    ensures MainLoop(verify, fix, q, budget) == Run([q], [], [], [], Exhausted)
    ensures Outcome(MainLoop(verify, fix, q, budget)) == Success(q)
  {
  }

  /** A compliant first verdict returns the input; the fixer is never called. */
  lemma FirstVerdictCompliant(verify: VerifyStep, fix: FixStep, q: ExamQuestion, budget: int)
    requires budget >= 1
    requires verify(0, q).Success? && verify(0, q).value.compliant
    ensures MainLoop(verify, fix, q, budget).judged == [q]
    ensures MainLoop(verify, fix, q, budget).fixed == []
    ensures Outcome(MainLoop(verify, fix, q, budget)) == Success(q)
  {
  }

  /** `main` returns a question whose first verdict is compliant, whatever
      the budget. */
  lemma VerifyFixCompliantFirst(judge: Oracle, rewriter: Oracle, q: ExamQuestion, budget: int)
    requires VerifyExamQuestion(judge, 0, q).Success? && VerifyExamQuestion(judge, 0, q).value.compliant
    ensures Outcome(VerifyFix(judge, rewriter, q, budget)) == Success(q)
  {
    var verify, fix := Verification(judge), Fixing(rewriter);
    assert verify(0, q).Success? && verify(0, q).value.compliant;
    if budget >= 1 {
      FirstVerdictCompliant(verify, fix, q, budget);
    } else {
      ZeroBudget(verify, fix, q, budget);
    }
  }

  /** When no verdict is compliant and no call raises, the budget is spent:
      verifier and fixer are each called `budget` times. When a verdict is
      compliant the fixer has been called once less than the verifier.
      Without an exception the history holds the input and one question per
      fix call. */
  lemma CallCounts(verify: VerifyStep, fix: FixStep, q: ExamQuestion, budget: int)
    ensures var run := MainLoop(verify, fix, q, budget);
      && (run.ending == Exhausted ==> |run.judged| == |run.fixed| == Rounds(budget))
      && (run.ending == Compliant ==> |run.fixed| == |run.judged| - 1)
      && (!run.ending.Raised? ==> |run.history| == |run.fixed| + 1)
  {
    MainLoopConsistent(verify, fix, q, budget);
  }

  /** The loop stops at the first compliant verdict: every verdict before the
      last is non-compliant, and a compliant ending returns the question that
      was judged compliant. */
  lemma StopsAtFirstCompliant(verify: VerifyStep, fix: FixStep, q: ExamQuestion, budget: int)
    ensures var run := MainLoop(verify, fix, q, budget);
      && (forall i :: 0 <= i < |run.verdicts| - 1 ==> !run.verdicts[i].compliant)
      && (run.ending == Compliant ==>
            && |run.judged| > 0 && |run.verdicts| > 0 && |run.history| > 0
            && Outcome(run) == Success(run.judged[|run.judged| - 1])
            && run.verdicts[|run.verdicts| - 1].compliant)
  {
    MainLoopConsistent(verify, fix, q, budget);
    var run := MainLoop(verify, fix, q, budget);
    forall i | 0 <= i < |run.verdicts| - 1 ensures !run.verdicts[i].compliant {
      assert run.fixed[i].verdict == run.verdicts[i];
    }
  }

  /** An exception from either call ends `main` with that exception: the
      last call made is the one that raised it. */
  lemma ErrorsPropagate(verify: VerifyStep, fix: FixStep, q: ExamQuestion, budget: int)
    ensures var run := MainLoop(verify, fix, q, budget);
      && |run.history| > 0
      && (Outcome(run).Failure? ==>
            && |run.judged| > 0
            && var n := |run.judged| - 1;
               || verify(n, run.judged[n]) == Failure(Outcome(run).error)
               || (n < |run.verdicts| && fix(n, run.judged[n], run.verdicts[n]) == Failure(Outcome(run).error)))
  {
    MainLoopConsistent(verify, fix, q, budget);
  }

  /** `main`: judge the newest question up to `budget` times, stop at the
      first compliant verdict, otherwise append the fixed question, and
      return the newest question. */
  method VerifyAndFix(judge: Oracle, rewriter: Oracle, q: ExamQuestion, budget: int)
    returns (result: Result<ExamQuestion, Exception>, run: Run)
    ensures run == VerifyFix(judge, rewriter, q, budget)
    ensures |run.history| >= 1 && result == Outcome(run)
  {
    result, run := IterateMain(Verification(judge), Fixing(rewriter), q, budget);
  }

  /** The loop of `main` on any verification and fix steps. */
  method IterateMain(verify: VerifyStep, fix: FixStep, q: ExamQuestion, budget: int)
    returns (result: Result<ExamQuestion, Exception>, run: Run)
    ensures run == MainLoop(verify, fix, q, budget)
    ensures |run.history| >= 1 && result == Outcome(run)
  {
    var history := [q];
    var verdicts: seq<Verdict> := [];
    var judged: seq<ExamQuestion> := [];
    var fixed: seq<FixCall> := [];
    var i := 0;
    while i < budget
      invariant |history| == i + 1 && |verdicts| == i && |judged| == i && |fixed| == i
      invariant Loop(verify, fix, budget, history, verdicts, judged, fixed) == MainLoop(verify, fix, q, budget)
      decreases budget - i
    {
      var current := history[|history| - 1];
      var verification := verify(i, current);
      if verification.Failure? {
        run := Run(history, verdicts, judged + [current], fixed, Raised(verification.error));
        return Failure(verification.error), run;
      }
      var verdict := verification.value;
      if verdict.compliant {
        run := Run(history, verdicts + [verdict], judged + [current], fixed, Compliant);
        return Success(current), run;
      }
      var repair := fix(i, current, verdict);
      if repair.Failure? {
        run := Run(history, verdicts + [verdict], judged + [current], fixed + [FixCall(current, verdict)], Raised(repair.error));
        return Failure(repair.error), run;
      }
      history := history + [repair.value];
      verdicts := verdicts + [verdict];
      judged := judged + [current];
      fixed := fixed + [FixCall(current, verdict)];
      i := i + 1;
    }
    run := Run(history, verdicts, judged, fixed, Exhausted);
    result := Success(history[|history| - 1]);
  }
}
