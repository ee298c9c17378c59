/** The two business records of schemas.py, `ExamQuestion` and
    `VerificationResult`, the JSON-like values their dictionaries hold, and the
    round trip between a record and its `model_dump()` dictionary. */
module Records {
  import opened Wrappers

  /** An exam question with its syllabus context; every field is free text
      (the question type is kept as the caller wrote it). */
  datatype ExamQuestion = ExamQuestion(
    question: string,
    answer: string,
    questionType: string,
    knowledgePoint: string,
    knowledgePointDescription: string,
    extraRequirement: string)

  /** A verification result: whether the question complies, and the advice for
      fixing it. */
  datatype Verdict = Verdict(compliant: bool, suggestion: string)

  /** The values a decoded JSON body or a model's structured output can hold. */
  datatype Value =
    | Str(s: string)
    | Bool(b: bool)
    | Int(i: int)
    | Null
    | Object(fields: map<string, Value>)
    | Other

  /** A dictionary with string keys, as `model_dump()` and `res.metadata`
      produce and as keyword arguments pass to a model constructor. */
  type Record = map<string, Value>

  /** Why a single field was refused. */
  datatype Problem =
    | Missing
    | NotAString
    | NotABool
    | NotAnInt
    | NotAnObject
    | TooShort(minLength: nat)
    | NotAllowed
    | OutOfRange(low: int, high: int)

  /** One field error of a validation failure; `path` leads from the outer
      record down to the field. */
  datatype FieldError = FieldError(path: seq<string>, problem: Problem)

  /** An exception: a validation error listing every field that failed, or a
      failure raised elsewhere (by the language model or its client). */
  datatype Exception =
    | ValidationError(errors: seq<FieldError>)
    | MissingAttribute(name: string)
    | RuntimeFailure(message: string)

  /** Which behaviour a member follows where the source contradicts itself:
      the code as written, or the evident intention. */
  datatype Variant = AsWritten | Corrected

  const QuestionKey := "question"
  const AnswerKey := "answer"
  const QuestionTypeKey := "question_type"
  const KnowledgePointKey := "knowledge_point"
  const KnowledgePointDescriptionKey := "knowledge_point_description"
  const ExtraRequirementKey := "extra_requirement"
  const CompliantKey := "is_compliant"
  const SuggestionKey := "suggestion"

  /** The name under which the verification loop, the fix call and the
      service's verification-result request look for the verdict flag. */
  const ComplianceAttribute := "Compliance"

  /** The six field names of `ExamQuestion`, in declaration order. */
  const QuestionKeys: seq<string> := [
    QuestionKey, AnswerKey, QuestionTypeKey, KnowledgePointKey, KnowledgePointDescriptionKey, ExtraRequirementKey
  ]

  /** The text fields of a question, in the order of `QuestionKeys`. */
  function QuestionFields(q: ExamQuestion): seq<string> {
    [q.question, q.answer, q.questionType, q.knowledgePoint, q.knowledgePointDescription, q.extraRequirement]
  }

  lemma QuestionKeysDistinct()
    ensures forall i, j :: 0 <= i < j < |QuestionKeys| ==> QuestionKeys[i] != QuestionKeys[j]
  {
    assert QuestionKeys[0][0] == 'q' && QuestionKeys[1][0] == 'a' && QuestionKeys[2][0] == 'q';
    assert QuestionKeys[3][0] == 'k' && QuestionKeys[4][0] == 'k' && QuestionKeys[5][0] == 'e';
    assert |QuestionKeys[0]| != |QuestionKeys[2]| && |QuestionKeys[3]| != |QuestionKeys[4]|;
  }

  /** `ExamQuestion.model_dump()`: one string entry per field. */
  function DumpQuestion(q: ExamQuestion): (r: Record)
    ensures forall key :: key in r <==> key in QuestionKeys
    ensures forall i :: 0 <= i < |QuestionKeys| ==> r[QuestionKeys[i]] == Str(QuestionFields(q)[i])
  {
    QuestionKeysDistinct();
    map[
      QuestionKey := Str(q.question),
      AnswerKey := Str(q.answer),
      QuestionTypeKey := Str(q.questionType),
      KnowledgePointKey := Str(q.knowledgePoint),
      KnowledgePointDescriptionKey := Str(q.knowledgePointDescription),
      ExtraRequirementKey := Str(q.extraRequirement)
    ]
  }

  /** A required `str` field of a record passed as keyword arguments. */
  function TextField(m: Record, key: string): (r: Result<string, FieldError>)
    ensures r.Success? <==> key in m && m[key].Str?
    ensures r.Success? ==> m[key] == Str(r.value)
    ensures r.Failure? ==> r.error.path == [key]
  {
    if key !in m then Failure(FieldError([key], Missing))
    else if !m[key].Str? then Failure(FieldError([key], NotAString))
    else Success(m[key].s)
  }

  /** A required `bool` field. */
  function BoolField(m: Record, key: string): (r: Result<bool, FieldError>)
    ensures r.Success? <==> key in m && m[key].Bool?
    ensures r.Success? ==> m[key] == Bool(r.value)
    ensures r.Failure? ==> r.error.path == [key]
  {
    if key !in m then Failure(FieldError([key], Missing))
    else if !m[key].Bool? then Failure(FieldError([key], NotABool))
    else Success(m[key].b)
  }

  /** The error of a field check, as a list of zero or one entries. */
  function ErrorsOf<T>(r: Result<T, FieldError>): (es: seq<FieldError>)
    ensures |es| <= 1 && (es == [] <==> r.Success?)
  {
    if r.Success? then [] else [r.error]
  }

  /** Every field of `ExamQuestion` is present in `m` and holds a string. */
  predicate HasTextFields(m: Record) {
    forall key :: key in QuestionKeys ==> key in m && m[key].Str?
  }

  /** `ExamQuestion(**m)`: every field must be present and a string; all
      failing fields are reported together, in declaration order, and keys
      that are not fields are ignored. */
  function LoadQuestion(m: Record): (r: Result<ExamQuestion, Exception>)
    ensures r.Success? <==> HasTextFields(m)
    ensures r.Success? ==> forall i :: 0 <= i < |QuestionKeys| ==> m[QuestionKeys[i]] == Str(QuestionFields(r.value)[i])
    ensures r.Failure? ==> r.error.ValidationError? && 1 <= |r.error.errors| <= 6
  {
    var question := TextField(m, QuestionKey);
    var answer := TextField(m, AnswerKey);
    var questionType := TextField(m, QuestionTypeKey);
    var knowledgePoint := TextField(m, KnowledgePointKey);
    var description := TextField(m, KnowledgePointDescriptionKey);
    var extra := TextField(m, ExtraRequirementKey);
    var errors := ErrorsOf(question) + ErrorsOf(answer) + ErrorsOf(questionType)
      + ErrorsOf(knowledgePoint) + ErrorsOf(description) + ErrorsOf(extra);
    if errors == [] then
      Success(ExamQuestion(question.value, answer.value, questionType.value,
                           knowledgePoint.value, description.value, extra.value))
    else
      Failure(ValidationError(errors))
  }

  /** Loading a dumped question gives the question back. */
  lemma LoadDumpQuestion(q: ExamQuestion)
    ensures LoadQuestion(DumpQuestion(q)) == Success(q)
  {
    var r := LoadQuestion(DumpQuestion(q));
    assert r.Success?;
    assert QuestionFields(r.value) == QuestionFields(q);
  }

  /** Loading keeps exactly the six fields: dumping what was loaded restores
      the record, apart from keys that are not fields. */
  lemma DumpLoadQuestion(m: Record)
    requires LoadQuestion(m).Success?
    ensures forall key :: key in DumpQuestion(LoadQuestion(m).value) ==> key in m && m[key] == DumpQuestion(LoadQuestion(m).value)[key]
  {
  }

  /** `VerificationResult.model_dump()`. */
  function DumpVerdict(v: Verdict): (r: Record)
    ensures r.Keys == {CompliantKey, SuggestionKey}
    ensures r[CompliantKey] == Bool(v.compliant) && r[SuggestionKey] == Str(v.suggestion)
  {
    map[CompliantKey := Bool(v.compliant), SuggestionKey := Str(v.suggestion)]
  }

  /** `VerificationResult(**m)`: a boolean verdict and a string suggestion,
      both required. */
  function LoadVerdict(m: Record): (r: Result<Verdict, Exception>)
    ensures r.Success? <==> CompliantKey in m && m[CompliantKey].Bool? && SuggestionKey in m && m[SuggestionKey].Str?
    ensures r.Success? ==> m[CompliantKey] == Bool(r.value.compliant) && m[SuggestionKey] == Str(r.value.suggestion)
    ensures r.Failure? ==> r.error.ValidationError? && 1 <= |r.error.errors| <= 2
  {
    var compliant := BoolField(m, CompliantKey);
    var suggestion := TextField(m, SuggestionKey);
    var errors := ErrorsOf(compliant) + ErrorsOf(suggestion);
    if errors == [] then Success(Verdict(compliant.value, suggestion.value))
    else Failure(ValidationError(errors))
  }

  /** Attribute access on a `VerificationResult`: its declared fields are
      there, any other name raises `AttributeError`. */
  function VerdictAttribute(v: Verdict, name: string): (r: Result<Value, Exception>)
    ensures r.Success? <==> name in DumpVerdict(v)
    ensures r.Success? ==> r.value == DumpVerdict(v)[name]
    ensures r.Failure? ==> r.error == MissingAttribute(name)
  {
    if name == CompliantKey then Success(Bool(v.compliant))
    else if name == SuggestionKey then Success(Str(v.suggestion))
    else Failure(MissingAttribute(name))
  }

  /** Python's truth value of a value, as `bool(x)` gives it. */
  predicate Truthy(x: Value) {
    match x
    case Bool(b) => b
    case Str(s) => |s| > 0
    case Int(i) => i != 0
    case Null => false
    case Object(fields) => |fields| > 0
    case Other => true
  }

  /** The flag is not readable under the name the loop uses. */
  lemma ComplianceNotDeclared(v: Verdict)
    ensures VerdictAttribute(v, ComplianceAttribute) == Failure(MissingAttribute(ComplianceAttribute))
    ensures VerdictAttribute(v, CompliantKey) == Success(Bool(v.compliant))
  {
    assert ComplianceAttribute[0] != CompliantKey[0] && ComplianceAttribute[0] != SuggestionKey[0];
  }

  lemma LoadDumpVerdict(v: Verdict)
    ensures LoadVerdict(DumpVerdict(v)) == Success(v)
  {
  }
}
