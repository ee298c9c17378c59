/** The three business endpoints of api_server.py and the response envelope
    `{code, message, data}` they answer with. Request bodies that fail
    validation are refused by the web framework before an endpoint runs; an
    endpoint itself never raises, it turns every exception into an error
    envelope. */
module Api {
  import opened Wrappers
  import opened Records
  import opened Verifier
  import opened Requests

  /** The `message` of an envelope: `"ok"`, or an endpoint-specific prefix
      followed by the text of the exception. */
  datatype Message = Ok | Failed(prefix: string, cause: Exception)

  /** `StandardResponse`: code 0 for success, otherwise an error code. */
  datatype Envelope = Envelope(code: int, message: Message, data: Option<Record>)

  /** `StandardResponse.is_success`. */
  predicate IsSuccess(e: Envelope) {
    e.code == 0
  }

  /** What the service sends back: an envelope with its HTTP status, or the
      framework's refusal of a body that fails validation. */
  datatype Reply = Reply(status: int, body: Envelope) | Unprocessable(errors: seq<FieldError>)

  const VerifyFailedPrefix := "核查失败: "
  const FixFailedPrefix := "修复失败: "
  const VerifyAndFixFailedPrefix := "核查+修复失败: "

  /** The `try`/`except` of every endpoint: a result becomes a success
      envelope with status 200, an exception an error envelope with status
      500, code 500 and no data. */
  function Respond(prefix: string, r: Result<Record, Exception>): (reply: Reply)
    ensures reply.Reply? && (IsSuccess(reply.body) <==> r.Success?)
    ensures r.Success? ==> reply.body.data == Some(r.value)
    ensures r.Failure? ==> reply.body.message == Failed(prefix, r.error)
    ensures WellFormed(reply)
  {
    match r
    case Success(data) => Reply(200, Envelope(0, Ok, Some(data)))
    case Failure(e) => Reply(500, Envelope(500, Failed(prefix, e), None))
  }

  /** The two shapes an endpoint's envelope can take. */
  predicate WellFormed(reply: Reply) {
    reply.Reply? ==>
      if IsSuccess(reply.body) then reply.status == 200 && reply.body.message == Ok && reply.body.data.Some?
      else reply.status == 500 && reply.body.code == 500 && reply.body.message.Failed? && reply.body.data == None
  }

  /** `payload.model_dump()` of a question request: a `None` text is dumped
      as `null`. */
  function DumpQuestionRequest(req: QuestionRequest): Record {
    map[
      QuestionKey := Str(req.question),
      AnswerKey := Str(req.answer),
      QuestionTypeKey := Str(req.questionType),
      KnowledgePointKey := if req.knowledgePoint.Some? then Str(req.knowledgePoint.value) else Null,
      KnowledgePointDescriptionKey := if req.knowledgePointDescription.Some? then Str(req.knowledgePointDescription.value) else Null,
      ExtraRequirementKey := if req.extraRequirement.Some? then Str(req.extraRequirement.value) else Null
    ]
  }

  /** `ExamQuestion(**payload.model_dump())`: the business model has no
      optional fields, so a request whose optional text was sent as `null`
      cannot be converted. */
  function ToExamQuestion(req: QuestionRequest): (r: Result<ExamQuestion, Exception>)
    ensures r.Success? <==>
      req.knowledgePoint.Some? && req.knowledgePointDescription.Some? && req.extraRequirement.Some?
    ensures r.Success? ==> r.value == ExamQuestion(req.question, req.answer, req.questionType,
      req.knowledgePoint.value, req.knowledgePointDescription.value, req.extraRequirement.value)
  {
    QuestionKeysDistinct();
    LoadQuestion(DumpQuestionRequest(req))
  }

  /** `payload.model_dump()` of a verification-result request. */
  function DumpVerdictRequest(req: VerdictRequest): Record {
    map[
      CompliantKey := Bool(req.compliant),
      SuggestionKey := if req.suggestion.Some? then Str(req.suggestion.value) else Null
    ]
  }

  /** `VerificationResult(**payload.model_dump())`: the business model needs
      a string suggestion, so a request without one cannot be converted. */
  function ToVerdict(req: VerdictRequest): (r: Result<Verdict, Exception>)
    ensures r.Success? <==> req.suggestion.Some?
    ensures r.Success? ==> r.value == Verdict(req.compliant, req.suggestion.value)
  {
    LoadVerdict(DumpVerdictRequest(req))
  }

  /** `VerificationResult(**payload.model_dump())` as api_server.py writes
      it: its request model dumps the flag under `Compliance`, a key the
      business model does not declare and ignores, so its own `is_compliant`
      is always missing. */
  function ToVerdictAsWritten(req: VerdictRequest): (r: Result<Verdict, Exception>)
    ensures r.Failure? && r.error.ValidationError?
    ensures |r.error.errors| >= 1 && r.error.errors[0] == FieldError([CompliantKey], Missing)
  {
    var dumped := map[
      ComplianceKey(ApiServer) := Bool(req.compliant),
      SuggestionKey := if req.suggestion.Some? then Str(req.suggestion.value) else Null
    ];
    assert |ComplianceKey(ApiServer)| != |CompliantKey|;
    LoadVerdict(dumped)
  }

  /** The verdict conversion of the fix endpoint: as api_server.py writes
      it, or with the flag dumped under the name the business model reads. */
  function ConvertVerdict(variant: Variant, req: VerdictRequest): Result<Verdict, Exception> {
    if variant == AsWritten then ToVerdictAsWritten(req) else ToVerdict(req)
  }

  /** What the verify endpoint computes for a validated request. */
  function VerifyData(judge: Oracle, payload: QuestionRequest): Result<Record, Exception> {
    var q :- ToExamQuestion(payload);
    var v :- VerifyExamQuestion(judge, 0, q);
    Success(DumpVerdict(v))
  }

  /** `POST /api/v1/verify`. */
  function VerifyEndpoint(judge: Oracle, body: Record): (reply: Reply)
    ensures reply.Unprocessable? <==> ParseQuestion(ApiServer, body).Failure?
  {
    match ParseQuestion(ApiServer, body)
    case Failure(errors) => Unprocessable(errors)
    case Success(payload) => Respond(VerifyFailedPrefix, VerifyData(judge, payload))
  }

  /** The fix call of the fix endpoint: as written it reads `Compliance`. */
  function FixStepOf(variant: Variant, rewriter: Oracle): FixStep {
    if variant == AsWritten then FixingAsWritten(rewriter) else Fixing(rewriter)
  }

  /** What the fix endpoint computes for a validated request. */
  function FixData(variant: Variant, rewriter: Oracle, payload: FixRequest): Result<Record, Exception> {
    var q :- ToExamQuestion(payload.examQuestion);
    var v :- ConvertVerdict(variant, payload.verificationResult);
    var fixed :- FixStepOf(variant, rewriter)(0, q, v);
    Success(DumpQuestion(fixed))
  }

  /** `POST /api/v1/fix`: as written it converts the verdict with
      `ToVerdictAsWritten` and calls the fixer that reads `Compliance`. */
  function FixEndpoint(variant: Variant, rewriter: Oracle, body: Record): (reply: Reply)
    ensures reply.Unprocessable? <==> ParseFix(ApiServer, body).Failure?
  {
    match ParseFix(ApiServer, body)
    case Failure(errors) => Unprocessable(errors)
    case Success(payload) => Respond(FixFailedPrefix, FixData(variant, rewriter, payload))
  }

  /** What the verify-and-fix endpoint computes for a validated request,
      with the loop that reads the declared flag. */
  function VerifyAndFixData(judge: Oracle, rewriter: Oracle, payload: VerifyAndFixRequest): Result<Record, Exception> {
    var q :- ToExamQuestion(payload.examQuestion);
    var final :- Outcome(VerifyFix(judge, rewriter, q, payload.maxFixAttempts));
    Success(DumpQuestion(final))
  }

  /** The same with `main` as written. */
  function VerifyAndFixDataAsWritten(judge: Oracle, rewriter: Oracle, payload: VerifyAndFixRequest): Result<Record, Exception> {
    var q :- ToExamQuestion(payload.examQuestion);
    var final :- MainAsWritten(Verification(judge), FixingAsWritten(rewriter), q, payload.maxFixAttempts);
    Success(DumpQuestion(final))
  }

  /** `POST /api/v1/verify-and-fix`. */
  function VerifyAndFixEndpoint(variant: Variant, judge: Oracle, rewriter: Oracle, body: Record): (reply: Reply)
    ensures reply.Unprocessable? <==> ParseVerifyAndFix(ApiServer, body).Failure?
  {
    match ParseVerifyAndFix(ApiServer, body)
    case Failure(errors) => Unprocessable(errors)
    case Success(payload) =>
      Respond(VerifyAndFixFailedPrefix,
        if variant == AsWritten then VerifyAndFixDataAsWritten(judge, rewriter, payload)
        else VerifyAndFixData(judge, rewriter, payload))
  }

  /** Every endpoint answers with one of the two envelope shapes: success
      exactly when the code is 0, and then status 200, message "ok" and data;
      otherwise status 500, code 500, an error message and no data. */
  lemma EndpointsWellFormed(variant: Variant, judge: Oracle, rewriter: Oracle, body: Record)
    ensures WellFormed(VerifyEndpoint(judge, body))
    ensures WellFormed(FixEndpoint(variant, rewriter, body))
    ensures WellFormed(VerifyAndFixEndpoint(variant, judge, rewriter, body))
  {
  }

  /** A fix request that api_server.py accepts, compliant or not, with a
      suggestion or without, ends in an error envelope as written: converting
      its verdict always raises. With the flag dumped under the declared name
      the conversion succeeds whenever a suggestion was sent. */
  lemma FixRequestNeverConverts(rewriter: Oracle, body: Record)
    requires ParseFix(ApiServer, body).Success?
    ensures ToVerdictAsWritten(ParseFix(ApiServer, body).value.verificationResult).Failure?
    ensures var reply := FixEndpoint(AsWritten, rewriter, body);
      reply.Reply? && reply.status == 500 && !IsSuccess(reply.body)
    ensures ParseFix(ApiServer, body).value.verificationResult.suggestion.Some? ==>
      ToVerdict(ParseFix(ApiServer, body).value.verificationResult).Success?
  {
  }

  /** What the corrected fix endpoint computes for a compliant verdict: the
      question as validated. */
  lemma FixDataCompliant(rewriter: Oracle, payload: FixRequest)
    requires ToExamQuestion(payload.examQuestion).Success?
    requires payload.verificationResult.compliant && payload.verificationResult.suggestion.Some?
    ensures FixData(Corrected, rewriter, payload) == Success(DumpQuestion(ToExamQuestion(payload.examQuestion).value))
  {
    var q, v := ToExamQuestion(payload.examQuestion).value, ToVerdict(payload.verificationResult).value;
    assert ConvertVerdict(Corrected, payload.verificationResult) == Success(v);
    assert FixStepOf(Corrected, rewriter)(0, q, v) == Success(q);
  }

  /** With the corrected conversion, a compliant verdict sent to the fix
      endpoint returns the question as validated, without asking the model. */
  lemma FixEndpointCompliant(rewriter: Oracle, body: Record)
    requires ParseFix(ApiServer, body).Success?
    requires var p := ParseFix(ApiServer, body).value;
      && ToExamQuestion(p.examQuestion).Success?
      && p.verificationResult.compliant && p.verificationResult.suggestion.Some?
    ensures FixEndpoint(Corrected, rewriter, body) ==
      Reply(200, Envelope(0, Ok, Some(DumpQuestion(ToExamQuestion(ParseFix(ApiServer, body).value.examQuestion).value))))
  {
    FixDataCompliant(rewriter, ParseFix(ApiServer, body).value);
  }

  /** A fix request without a suggestion passes validation but always ends
      in an error envelope, compliant or not, in either variant: the business
      verdict needs a string suggestion. */
  lemma FixWithoutSuggestionFails(variant: Variant, rewriter: Oracle, body: Record)
    requires ParseFix(ApiServer, body).Success?
    requires ParseFix(ApiServer, body).value.verificationResult.suggestion == None
    ensures var reply := FixEndpoint(variant, rewriter, body);
      reply.Reply? && reply.status == 500 && !IsSuccess(reply.body)
  {
    FixDataWithoutSuggestion(variant, rewriter, ParseFix(ApiServer, body).value);
  }

  /** What the fix endpoint computes for a request without a suggestion: an
      exception, in either variant. */
  lemma FixDataWithoutSuggestion(variant: Variant, rewriter: Oracle, payload: FixRequest)
    requires payload.verificationResult.suggestion == None
    ensures FixData(variant, rewriter, payload).Failure?
  {
  }

  /** As written, every verify-and-fix request api_server.py accepts ends in
      an error envelope: when its question converts and the first verification
      succeeds, the cause is the missing `Compliance` attribute, compliant
      verdict or not. */
  lemma VerifyAndFixAsWrittenFails(judge: Oracle, rewriter: Oracle, body: Record)
    requires ParseVerifyAndFix(ApiServer, body).Success?
    ensures var reply := VerifyAndFixEndpoint(AsWritten, judge, rewriter, body);
      reply.Reply? && reply.status == 500 && !IsSuccess(reply.body)
    ensures var p := ParseVerifyAndFix(ApiServer, body).value;
      ToExamQuestion(p.examQuestion).Success? && VerifyExamQuestion(judge, 0, ToExamQuestion(p.examQuestion).value).Success? ==>
        VerifyAndFixEndpoint(AsWritten, judge, rewriter, body) ==
          Reply(500, Envelope(500, Failed(VerifyAndFixFailedPrefix, MissingAttribute(ComplianceAttribute)), None))
  {
    VerifyAndFixDataAsWrittenFails(judge, rewriter, ParseVerifyAndFix(ApiServer, body).value);
  }

  /** What the verify-and-fix endpoint computes as written for a request
      with a positive budget: always an exception, the missing `Compliance`
      attribute once a verification succeeds. */
  lemma VerifyAndFixDataAsWrittenFails(judge: Oracle, rewriter: Oracle, payload: VerifyAndFixRequest)
    requires payload.maxFixAttempts > 0
    ensures VerifyAndFixDataAsWritten(judge, rewriter, payload).Failure?
    ensures ToExamQuestion(payload.examQuestion).Success? && VerifyExamQuestion(judge, 0, ToExamQuestion(payload.examQuestion).value).Success? ==>
      VerifyAndFixDataAsWritten(judge, rewriter, payload) == Failure(MissingAttribute(ComplianceAttribute))
  {
    if ToExamQuestion(payload.examQuestion).Success? {
      var q := ToExamQuestion(payload.examQuestion).value;
      MainAsWrittenRaises(Verification(judge), FixingAsWritten(rewriter), q, payload.maxFixAttempts);
    }
  }

  /** With the loop that reads the declared flag, when the first verdict on
      the submitted question is compliant, the verify-and-fix endpoint returns
      that question without asking the rewriting model. */
  lemma VerifyAndFixCompliantFirst(judge: Oracle, rewriter: Oracle, body: Record)
    requires ParseVerifyAndFix(ApiServer, body).Success?
    requires ToExamQuestion(ParseVerifyAndFix(ApiServer, body).value.examQuestion).Success?
    requires var q := ToExamQuestion(ParseVerifyAndFix(ApiServer, body).value.examQuestion).value;
      VerifyExamQuestion(judge, 0, q).Success? && VerifyExamQuestion(judge, 0, q).value.compliant
    ensures var q := ToExamQuestion(ParseVerifyAndFix(ApiServer, body).value.examQuestion).value;
      VerifyAndFixEndpoint(Corrected, judge, rewriter, body) == Reply(200, Envelope(0, Ok, Some(DumpQuestion(q))))
  {
    VerifyAndFixDataCompliant(judge, rewriter, ParseVerifyAndFix(ApiServer, body).value);
  }

  /** What the corrected verify-and-fix endpoint computes when the first
      verdict is compliant: the question as validated. */
  lemma VerifyAndFixDataCompliant(judge: Oracle, rewriter: Oracle, payload: VerifyAndFixRequest)
    requires ToExamQuestion(payload.examQuestion).Success?
    requires var q := ToExamQuestion(payload.examQuestion).value;
      VerifyExamQuestion(judge, 0, q).Success? && VerifyExamQuestion(judge, 0, q).value.compliant
    ensures VerifyAndFixData(judge, rewriter, payload) == Success(DumpQuestion(ToExamQuestion(payload.examQuestion).value))
  {
    var q := ToExamQuestion(payload.examQuestion).value;
    VerifyFixCompliantFirst(judge, rewriter, q, payload.maxFixAttempts);
  }

  /** The verify endpoint's data is the verdict of the verification call on
      the converted question, dumped; an exception of the conversion or of
      the call is passed on. */
  lemma VerifyDataResult(judge: Oracle, payload: QuestionRequest)
    ensures ToExamQuestion(payload).Failure? ==> VerifyData(judge, payload) == Failure(ToExamQuestion(payload).error)
    ensures ToExamQuestion(payload).Success? ==>
      var r := VerifyExamQuestion(judge, 0, ToExamQuestion(payload).value);
      VerifyData(judge, payload) == if r.Success? then Success(DumpVerdict(r.value)) else Failure(r.error)
  {
  }

  /** For every body it accepts, the verify endpoint answers with the dumped
      verdict of the verification call and status 200, or with status 500
      and the exception of the conversion or of the call. */
  lemma VerifyEndpointResult(judge: Oracle, body: Record)
    requires ParseQuestion(ApiServer, body).Success?
    ensures var p := ParseQuestion(ApiServer, body).value;
      ToExamQuestion(p).Failure? ==>
        VerifyEndpoint(judge, body) == Reply(500, Envelope(500, Failed(VerifyFailedPrefix, ToExamQuestion(p).error), None))
    ensures var p := ParseQuestion(ApiServer, body).value;
      ToExamQuestion(p).Success? ==>
        var r := VerifyExamQuestion(judge, 0, ToExamQuestion(p).value);
        VerifyEndpoint(judge, body) ==
          if r.Success? then Reply(200, Envelope(0, Ok, Some(DumpVerdict(r.value))))
          else Reply(500, Envelope(500, Failed(VerifyFailedPrefix, r.error), None))
  {
    VerifyDataResult(judge, ParseQuestion(ApiServer, body).value);
  }

  /** With the corrected conversion, the fix endpoint's data is the result
      of the fix call on the converted question and verdict, dumped; an
      exception of either conversion or of the call is passed on. */
  lemma FixDataResult(rewriter: Oracle, payload: FixRequest)
    ensures ToExamQuestion(payload.examQuestion).Failure? ==>
      FixData(Corrected, rewriter, payload) == Failure(ToExamQuestion(payload.examQuestion).error)
    ensures ToExamQuestion(payload.examQuestion).Success? && ToVerdict(payload.verificationResult).Failure? ==>
      FixData(Corrected, rewriter, payload) == Failure(ToVerdict(payload.verificationResult).error)
    ensures ToExamQuestion(payload.examQuestion).Success? && ToVerdict(payload.verificationResult).Success? ==>
      var f := FixExamQuestion(rewriter, 0, ToExamQuestion(payload.examQuestion).value, ToVerdict(payload.verificationResult).value);
      FixData(Corrected, rewriter, payload) == if f.Success? then Success(DumpQuestion(f.value)) else Failure(f.error)
  {
    if ToExamQuestion(payload.examQuestion).Success? && ToVerdict(payload.verificationResult).Success? {
      var q, v := ToExamQuestion(payload.examQuestion).value, ToVerdict(payload.verificationResult).value;
      assert ConvertVerdict(Corrected, payload.verificationResult) == Success(v);
      assert FixStepOf(Corrected, rewriter)(0, q, v) == FixExamQuestion(rewriter, 0, q, v);
    }
  }

  /** With the corrected conversion, for every body it accepts whose
      question and verdict convert, the fix endpoint answers with the dumped
      result of the fix call and status 200, or with status 500 and the
      call's exception. */
  lemma FixEndpointResult(rewriter: Oracle, body: Record)
    requires ParseFix(ApiServer, body).Success?
    requires ToExamQuestion(ParseFix(ApiServer, body).value.examQuestion).Success?
    requires ToVerdict(ParseFix(ApiServer, body).value.verificationResult).Success?
    ensures var p := ParseFix(ApiServer, body).value;
      var f := FixExamQuestion(rewriter, 0, ToExamQuestion(p.examQuestion).value, ToVerdict(p.verificationResult).value);
      FixEndpoint(Corrected, rewriter, body) ==
        if f.Success? then Reply(200, Envelope(0, Ok, Some(DumpQuestion(f.value))))
        else Reply(500, Envelope(500, Failed(FixFailedPrefix, f.error), None))
  {
    FixDataResult(rewriter, ParseFix(ApiServer, body).value);
  }

  /** With the corrected loop, the verify-and-fix endpoint's data is the
      outcome of `main` on the converted question and the accepted budget,
      dumped; an exception of the conversion or of `main` is passed on. */
  lemma VerifyAndFixDataResult(judge: Oracle, rewriter: Oracle, payload: VerifyAndFixRequest)
    ensures ToExamQuestion(payload.examQuestion).Failure? ==>
      VerifyAndFixData(judge, rewriter, payload) == Failure(ToExamQuestion(payload.examQuestion).error)
    ensures ToExamQuestion(payload.examQuestion).Success? ==>
      var o := Outcome(VerifyFix(judge, rewriter, ToExamQuestion(payload.examQuestion).value, payload.maxFixAttempts));
      VerifyAndFixData(judge, rewriter, payload) == if o.Success? then Success(DumpQuestion(o.value)) else Failure(o.error)
  {
  }

  /** With the corrected loop, for every body it accepts whose question
      converts, the verify-and-fix endpoint answers with the dumped outcome
      of `main` and status 200, or with status 500 and `main`'s exception. */
  lemma VerifyAndFixEndpointResult(judge: Oracle, rewriter: Oracle, body: Record)
    requires ParseVerifyAndFix(ApiServer, body).Success?
    requires ToExamQuestion(ParseVerifyAndFix(ApiServer, body).value.examQuestion).Success?
    ensures var p := ParseVerifyAndFix(ApiServer, body).value;
      var o := Outcome(VerifyFix(judge, rewriter, ToExamQuestion(p.examQuestion).value, p.maxFixAttempts));
      VerifyAndFixEndpoint(Corrected, judge, rewriter, body) ==
        if o.Success? then Reply(200, Envelope(0, Ok, Some(DumpQuestion(o.value))))
        else Reply(500, Envelope(500, Failed(VerifyAndFixFailedPrefix, o.error), None))
  {
    VerifyAndFixDataResult(judge, rewriter, ParseVerifyAndFix(ApiServer, body).value);
  }
}
