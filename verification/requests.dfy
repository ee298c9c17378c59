/** The request bodies the HTTP service validates: the question request with
    its stripped text fields, minimum lengths, type tag rule and defaults, the
    verification-result request, and the two composite requests. Two versions
    of the question and verification-result requests exist, one in
    api_server.py and one in schemas.py; `Schema` says which one is meant. */
module Requests {
  import opened Wrappers
  import opened Text
  import opened QuestionType
  import opened Records

  /** The module that declares the request models; for schemas.py, whether
      its type normaliser is taken as written or with the alias lookup its
      comment describes. */
  datatype Schema = ApiServer | Schemas(normaliser: Variant)

  /** `strip_strings`: strings lose their surrounding whitespace, every other
      value passes through. */
  function StripStrings(v: Value): (r: Value)
    ensures v.Str? ==> r.Str? && StripsTo(v.s, r.s)
    ensures !v.Str? ==> r == v
  {
    if v.Str? then Str(Strip(v.s)) else v
  }

  lemma StripStringsIdempotent(v: Value)
    ensures StripStrings(StripStrings(v)) == StripStrings(v)
  {
    if v.Str? {
      StripIdempotent(v.s);
    }
  }

  /** The ten tags of the `question_type` literal in api_server.py. */
  const LiteralTags: seq<string> := [
    EnglishTag(SingleChoice), EnglishTag(MultiChoice), EnglishTag(FillBlank), EnglishTag(BriefAnswer), EnglishTag(Calculation),
    ChineseTag(SingleChoice), ChineseTag(MultiChoice), ChineseTag(FillBlank), ChineseTag(BriefAnswer), ChineseTag(Calculation)
  ]

  /** The literal admits exactly the English and the Chinese tag of every
      kind. */
  lemma LiteralTagsAreTags(t: string)
    ensures t in LiteralTags <==> exists k :: IsTagOf(t, k)
  {
    if t in LiteralTags {
      var i :| 0 <= i < |LiteralTags| && LiteralTags[i] == t;
      if i < 5 {
        assert IsTagOf(t, KindAt(i));
      } else {
        assert IsTagOf(t, KindAt(i - 5));
      }
    }
  }

  /** A validated question request. The three optional texts may be `None`
      when the caller sent `null`. */
  datatype QuestionRequest = QuestionRequest(
    question: string,
    answer: string,
    questionType: string,
    knowledgePoint: Option<string>,
    knowledgePointDescription: Option<string>,
    extraRequirement: Option<string>)

  const MinQuestionLength: nat := 5
  const MinAnswerLength: nat := 1

  /** A required `str` field with a minimum length, stripped before the type
      and length checks. */
  function RequiredText(m: Record, key: string, minLength: nat): (r: Result<string, FieldError>)
    ensures r.Success? <==> key in m && m[key].Str? && |Strip(m[key].s)| >= minLength
    ensures r.Success? ==> r.value == Strip(m[key].s)
    ensures r.Failure? ==> r.error.path == [key]
  {
    if key !in m then Failure(FieldError([key], Missing))
    else
      match StripStrings(m[key])
      case Str(s) => if |s| >= minLength then Success(s) else Failure(FieldError([key], TooShort(minLength)))
      case _ => Failure(FieldError([key], NotAString))
  }

  /** An `Optional[str]` field with default `""`: the default is taken as it
      is, a sent string is stripped, and `null` is kept as `None`. */
  function OptionalText(m: Record, key: string): (r: Result<Option<string>, FieldError>)
    ensures key !in m ==> r == Success(Some(""))
    ensures key in m ==> (r.Success? <==> m[key].Str? || m[key] == Null)
    ensures key in m && m[key].Str? ==> r == Success(Some(Strip(m[key].s)))
    ensures key in m && m[key] == Null ==> r == Success(None)
    ensures r.Failure? ==> r.error.path == [key]
  {
    if key !in m then Success(Some(""))
    else
      match StripStrings(m[key])
      case Str(s) => Success(Some(s))
      case Null => Success(None)
      case _ => Failure(FieldError([key], NotAString))
  }

  /** The `question_type` rule. In api_server.py a `Literal` of the ten tags,
      compared without stripping. In schemas.py `Union[QuestionType, str]`
      after the normalising validator: a name the normaliser looks up becomes
      its member, whose value is the English tag, any other string stays as
      sent, and anything else is refused. */
  function TypeTag(schema: Schema, m: Record, key: string): (r: Result<string, FieldError>)
    ensures r.Failure? ==> r.error.path == [key]
  {
    if key !in m then Failure(FieldError([key], Missing)) else TagOf(schema, m[key], key)
  }

  /** The `question_type` rule on the value sent under `key`. */
  function TagOf(schema: Schema, v: Value, key: string): (r: Result<string, FieldError>)
    ensures r.Failure? ==> r.error.path == [key]
  {
    match schema
    case ApiServer =>
      if v.Str? && v.s in LiteralTags then Success(v.s)
      else Failure(FieldError([key], NotAllowed))
    case Schemas(variant) =>
      var input := if v.Str? then Given(v.s) else NonText;
      var normalized := if variant == AsWritten then NormalizeQuestionType(input) else NormalizeQuestionTypeWithAliases(input);
      match normalized
      case Member(k) => Success(EnglishTag(k))
      case Given(s) => Success(s)
      case NonText => Failure(FieldError([key], NotAString))
  }

  /** Which type tags each request model accepts, and what it keeps.
      api_server.py: exactly the ten tags, kept as sent. schemas.py: every
      string; the English tag and the member name of a kind become its
      English tag. As written a Chinese tag is kept as sent; with the alias
      lookup it becomes the English tag too. */
  lemma TypeTagRule(schema: Schema, m: Record, key: string)
    requires key in m
    ensures schema == ApiServer ==>
      (TypeTag(schema, m, key).Success? <==> m[key].Str? && exists k :: IsTagOf(m[key].s, k))
    ensures schema == ApiServer && TypeTag(schema, m, key).Success? ==> TypeTag(schema, m, key).value == m[key].s
    ensures schema.Schemas? ==> (TypeTag(schema, m, key).Success? <==> m[key].Str?)
    ensures schema.Schemas? ==>
      forall k :: (m[key] == Str(EnglishTag(k)) || m[key] == Str(MemberName(k))) ==>
        TypeTag(schema, m, key) == Success(EnglishTag(k))
    ensures schema == Schemas(AsWritten) ==>
      forall k :: m[key] == Str(ChineseTag(k)) ==> TypeTag(schema, m, key) == Success(ChineseTag(k))
    ensures schema == Schemas(Corrected) ==>
      forall k :: m[key] == Str(ChineseTag(k)) ==> TypeTag(schema, m, key) == Success(EnglishTag(k))
  {
    match schema
    case ApiServer => LiteralTagRule(m[key], key);
    case Schemas(variant) => NormalizedTagRule(variant, m[key], key);
  }

  /** The literal of api_server.py on one value. */
  lemma LiteralTagRule(v: Value, key: string)
    ensures TagOf(ApiServer, v, key).Success? <==> v.Str? && exists k :: IsTagOf(v.s, k)
    ensures TagOf(ApiServer, v, key).Success? ==> TagOf(ApiServer, v, key).value == v.s
  {
    if v.Str? {
      LiteralTagsAreTags(v.s);
    }
  }

  /** The validator of schemas.py on one value: as written, or with the
      alias lookup. */
  lemma NormalizedTagRule(variant: Variant, v: Value, key: string)
    ensures TagOf(Schemas(variant), v, key).Success? <==> v.Str?
    ensures forall k :: (v == Str(EnglishTag(k)) || v == Str(MemberName(k))) ==>
      TagOf(Schemas(variant), v, key) == Success(EnglishTag(k))
    ensures variant == AsWritten ==>
      forall k :: v == Str(ChineseTag(k)) ==> TagOf(Schemas(variant), v, key) == Success(ChineseTag(k))
    ensures variant == Corrected ==>
      forall k :: v == Str(ChineseTag(k)) ==> TagOf(Schemas(variant), v, key) == Success(EnglishTag(k))
  {
    NormalizedTagAccepts(variant, v, key);
    forall k | v == Str(EnglishTag(k)) || v == Str(MemberName(k))
      ensures TagOf(Schemas(variant), v, key) == Success(EnglishTag(k))
    {
      EnglishTagNormalized(variant, k, key);
    }
    forall k | v == Str(ChineseTag(k))
      ensures TagOf(Schemas(variant), v, key) == Success(if variant == AsWritten then ChineseTag(k) else EnglishTag(k))
    {
      ChineseTagNormalized(variant, k, key);
    }
  }

  /** Every string passes the validator, and nothing else does. */
  lemma NormalizedTagAccepts(variant: Variant, v: Value, key: string)
    ensures TagOf(Schemas(variant), v, key).Success? <==> v.Str?
  {
  }

  /** The English tag and the member name of a kind become its English tag. */
  lemma EnglishTagNormalized(variant: Variant, k: Kind, key: string)
    ensures TagOf(Schemas(variant), Str(EnglishTag(k)), key) == Success(EnglishTag(k))
    ensures TagOf(Schemas(variant), Str(MemberName(k)), key) == Success(EnglishTag(k))
  {
    MemberTagNormalized(variant, k, key, EnglishTag(k));
    MemberTagNormalized(variant, k, key, MemberName(k));
  }

  /** One of the two tags by which a member is found becomes its English
      tag. */
  lemma MemberTagNormalized(variant: Variant, k: Kind, key: string, tag: string)
    requires tag == EnglishTag(k) || tag == MemberName(k)
    ensures TagOf(Schemas(variant), Str(tag), key) == Success(EnglishTag(k))
  {
    if variant == AsWritten {
      MemberTagAsWritten(k, key, tag);
    } else {
      MemberTagWithAliases(k, key, tag);
    }
  }

  /** The validator as written finds a member by its English tag or name. */
  lemma MemberTagAsWritten(k: Kind, key: string, tag: string)
    requires tag == EnglishTag(k) || tag == MemberName(k)
    ensures TagOf(Schemas(AsWritten), Str(tag), key) == Success(EnglishTag(k))
  {
    FoundAsWritten(k, tag);
  }

  /** The step of `MemberTagAsWritten` about the normaliser alone. */
  lemma FoundAsWritten(k: Kind, tag: string)
    requires tag == EnglishTag(k) || tag == MemberName(k)
    ensures NormalizeQuestionType(Given(tag)) == Member(k)
  {
  }

  /** The validator with the alias lookup finds a member by its English tag
      or name. */
  lemma MemberTagWithAliases(k: Kind, key: string, tag: string)
    requires tag == EnglishTag(k) || tag == MemberName(k)
    ensures TagOf(Schemas(Corrected), Str(tag), key) == Success(EnglishTag(k))
  {
    assert NormalizeQuestionTypeWithAliases(Given(tag)) == Member(k);
  }

  /** A Chinese tag is kept as sent as written, and becomes the English tag
      with the alias lookup. */
  lemma ChineseTagNormalized(variant: Variant, k: Kind, key: string)
    ensures TagOf(Schemas(variant), Str(ChineseTag(k)), key) ==
      Success(if variant == AsWritten then ChineseTag(k) else EnglishTag(k))
  {
    if variant == AsWritten {
      ChineseTagNotNormalized(k);
    }
  }

  /** The question request model: every field is checked and all failures are
      reported together. */
  function ParseQuestion(schema: Schema, m: Record): (r: Result<QuestionRequest, seq<FieldError>>)
    ensures r.Failure? ==> 1 <= |r.error| <= 6
  {
    var question := RequiredText(m, QuestionKey, MinQuestionLength);
    var answer := RequiredText(m, AnswerKey, MinAnswerLength);
    var questionType := TypeTag(schema, m, QuestionTypeKey);
    var knowledgePoint := OptionalText(m, KnowledgePointKey);
    var description := OptionalText(m, KnowledgePointDescriptionKey);
    var extra := OptionalText(m, ExtraRequirementKey);
    var errors := ErrorsOf(question) + ErrorsOf(answer) + ErrorsOf(questionType)
      + ErrorsOf(knowledgePoint) + ErrorsOf(description) + ErrorsOf(extra);
    if errors == [] then
      Success(QuestionRequest(question.value, answer.value, questionType.value,
                              knowledgePoint.value, description.value, extra.value))
    else
      Failure(errors)
  }

  /** An optional text field is absent, a string or `null`. */
  predicate OptionalAcceptable(m: Record, key: string) {
    key in m ==> m[key].Str? || m[key] == Null
  }

  /** When a question request is accepted, stated field by field. */
  predicate QuestionAcceptable(schema: Schema, m: Record) {
    && QuestionKey in m && m[QuestionKey].Str? && |Strip(m[QuestionKey].s)| >= MinQuestionLength
    && AnswerKey in m && m[AnswerKey].Str? && |Strip(m[AnswerKey].s)| >= MinAnswerLength
    && TypeTag(schema, m, QuestionTypeKey).Success?
    && OptionalAcceptable(m, KnowledgePointKey)
    && OptionalAcceptable(m, KnowledgePointDescriptionKey)
    && OptionalAcceptable(m, ExtraRequirementKey)
  }

  /** A question request is accepted exactly when every field is. */
  lemma ParseQuestionIff(schema: Schema, m: Record)
    ensures ParseQuestion(schema, m).Success? <==> QuestionAcceptable(schema, m)
  {
    var question := RequiredText(m, QuestionKey, MinQuestionLength);
    var answer := RequiredText(m, AnswerKey, MinAnswerLength);
    var knowledgePoint := OptionalText(m, KnowledgePointKey);
    var description := OptionalText(m, KnowledgePointDescriptionKey);
    var extra := OptionalText(m, ExtraRequirementKey);
    assert question.Success? <==> QuestionKey in m && m[QuestionKey].Str? && |Strip(m[QuestionKey].s)| >= MinQuestionLength;
    assert answer.Success? <==> AnswerKey in m && m[AnswerKey].Str? && |Strip(m[AnswerKey].s)| >= MinAnswerLength;
    assert knowledgePoint.Success? <==> OptionalAcceptable(m, KnowledgePointKey);
    assert description.Success? <==> OptionalAcceptable(m, KnowledgePointDescriptionKey);
    assert extra.Success? <==> OptionalAcceptable(m, ExtraRequirementKey);
  }

  /** An accepted question and answer are the stripped texts that were sent,
      at least five and one characters long, and stripping them again changes
      nothing. */
  lemma ParsedTextsStripped(schema: Schema, m: Record)
    requires ParseQuestion(schema, m).Success?
    ensures var r := ParseQuestion(schema, m).value;
      && QuestionKey in m && m[QuestionKey].Str? && AnswerKey in m && m[AnswerKey].Str?
      && r.question == Strip(m[QuestionKey].s) && |r.question| >= MinQuestionLength && Strip(r.question) == r.question
      && r.answer == Strip(m[AnswerKey].s) && |r.answer| >= MinAnswerLength && Strip(r.answer) == r.answer
  {
    StripIdempotent(m[QuestionKey].s);
    StripIdempotent(m[AnswerKey].s);
  }

  /** Optional texts that were not sent default to the empty string. */
  lemma OptionalDefaults(schema: Schema, m: Record)
    requires ParseQuestion(schema, m).Success?
    ensures KnowledgePointKey !in m ==> ParseQuestion(schema, m).value.knowledgePoint == Some("")
    ensures KnowledgePointDescriptionKey !in m ==> ParseQuestion(schema, m).value.knowledgePointDescription == Some("")
    ensures ExtraRequirementKey !in m ==> ParseQuestion(schema, m).value.extraRequirement == Some("")
  {
  }

  /** An accepted question request holds the type tag and the optional texts
      exactly as their field rules produce them. */
  lemma ParsedFields(schema: Schema, m: Record)
    requires ParseQuestion(schema, m).Success?
    ensures var r := ParseQuestion(schema, m).value;
      && Success(r.questionType) == TypeTag(schema, m, QuestionTypeKey)
      && Success(r.knowledgePoint) == OptionalText(m, KnowledgePointKey)
      && Success(r.knowledgePointDescription) == OptionalText(m, KnowledgePointDescriptionKey)
      && Success(r.extraRequirement) == OptionalText(m, ExtraRequirementKey)
  {
  }

  /** Optional texts that were sent are kept stripped, and a `null` is kept
      as no value. With the api_server.py model, the type tag is the literal
      sent, unchanged. */
  lemma ParsedFieldsSent(schema: Schema, m: Record)
    requires ParseQuestion(schema, m).Success?
    ensures var r := ParseQuestion(schema, m).value;
      && (KnowledgePointKey in m && m[KnowledgePointKey].Str? ==> r.knowledgePoint == Some(Strip(m[KnowledgePointKey].s)))
      && (KnowledgePointKey in m && m[KnowledgePointKey] == Null ==> r.knowledgePoint == None)
    ensures var r := ParseQuestion(schema, m).value;
      && (KnowledgePointDescriptionKey in m && m[KnowledgePointDescriptionKey].Str? ==>
            r.knowledgePointDescription == Some(Strip(m[KnowledgePointDescriptionKey].s)))
      && (KnowledgePointDescriptionKey in m && m[KnowledgePointDescriptionKey] == Null ==> r.knowledgePointDescription == None)
    ensures var r := ParseQuestion(schema, m).value;
      && (ExtraRequirementKey in m && m[ExtraRequirementKey].Str? ==> r.extraRequirement == Some(Strip(m[ExtraRequirementKey].s)))
      && (ExtraRequirementKey in m && m[ExtraRequirementKey] == Null ==> r.extraRequirement == None)
    ensures schema == ApiServer ==>
      QuestionTypeKey in m && m[QuestionTypeKey].Str? && ParseQuestion(schema, m).value.questionType == m[QuestionTypeKey].s
  {
    ParsedFields(schema, m);
    if schema == ApiServer {
      LiteralTagRule(m[QuestionTypeKey], QuestionTypeKey);
    }
  }

  /** Two records that differ at most in one field, whose stripped text is
      the same in both, pass every text check alike. */
  lemma TextChecksAgree(m1: Record, m2: Record, key: string)
    requires key in m1 && key in m2 && m1[key].Str? && m2[key].Str? && Strip(m1[key].s) == Strip(m2[key].s)
    requires forall k :: k != key ==> (k in m1 <==> k in m2) && (k in m1 ==> m1[k] == m2[k])
    ensures forall k, n :: RequiredText(m1, k, n) == RequiredText(m2, k, n)
    ensures forall k :: OptionalText(m1, k) == OptionalText(m2, k)
  {
    forall k, n ensures RequiredText(m1, k, n) == RequiredText(m2, k, n) {
      if k == key {
        assert StripStrings(m1[k]) == StripStrings(m2[k]);
      }
    }
    forall k ensures OptionalText(m1, k) == OptionalText(m2, k) {
      if k == key {
        assert StripStrings(m1[k]) == StripStrings(m2[k]);
      }
    }
  }

  /** Whitespace around any sent text other than the type tag never changes
      whether a question request is accepted or what it holds. (The type tag
      is not stripped: padding it can change the outcome.) */
  lemma PaddingIgnored(schema: Schema, m: Record, key: string, before: string, s: string, after: string)
    requires key != QuestionTypeKey
    requires AllSpace(before) && AllSpace(after)
    ensures ParseQuestion(schema, m[key := Str(before + s + after)]) == ParseQuestion(schema, m[key := Str(s)])
  {
    StripIgnoresPadding(before, s, after);
    var m1, m2 := m[key := Str(before + s + after)], m[key := Str(s)];
    TextChecksAgree(m1, m2, key);
    assert QuestionTypeKey in m1 ==> m1[QuestionTypeKey] == m2[QuestionTypeKey];
    assert TypeTag(schema, m1, QuestionTypeKey) == TypeTag(schema, m2, QuestionTypeKey);
    FieldsDecideParse(schema, m1, m2);
  }

  /** A question request's outcome depends only on the outcomes of its six
      field checks. */
  lemma FieldsDecideParse(schema: Schema, m1: Record, m2: Record)
    requires RequiredText(m1, QuestionKey, MinQuestionLength) == RequiredText(m2, QuestionKey, MinQuestionLength)
    requires RequiredText(m1, AnswerKey, MinAnswerLength) == RequiredText(m2, AnswerKey, MinAnswerLength)
    requires TypeTag(schema, m1, QuestionTypeKey) == TypeTag(schema, m2, QuestionTypeKey)
    requires forall k :: OptionalText(m1, k) == OptionalText(m2, k)
    ensures ParseQuestion(schema, m1) == ParseQuestion(schema, m2)
  {
    assert OptionalText(m1, KnowledgePointKey) == OptionalText(m2, KnowledgePointKey);
    assert OptionalText(m1, KnowledgePointDescriptionKey) == OptionalText(m2, KnowledgePointDescriptionKey);
    assert OptionalText(m1, ExtraRequirementKey) == OptionalText(m2, ExtraRequirementKey);
  }


  /** A validated verification-result request: `suggestion` is optional and
      defaults to `None`. */
  datatype VerdictRequest = VerdictRequest(compliant: bool, suggestion: Option<string>)

  /** The name of the verdict field: api_server.py calls it `Compliance`,
      schemas.py `is_compliant`. */
  function ComplianceKey(schema: Schema): string {
    if schema.ApiServer? then ComplianceAttribute else CompliantKey
  }

  /** The verification-result request model; its strings are not stripped. */
  function ParseVerdict(schema: Schema, m: Record): (r: Result<VerdictRequest, seq<FieldError>>)
    ensures r.Success? <==>
      && ComplianceKey(schema) in m && m[ComplianceKey(schema)].Bool?
      && (SuggestionKey in m ==> m[SuggestionKey].Str? || m[SuggestionKey] == Null)
    ensures r.Success? ==> m[ComplianceKey(schema)] == Bool(r.value.compliant)
    ensures r.Success? && (SuggestionKey !in m || m[SuggestionKey] == Null) ==> r.value.suggestion == None
    ensures r.Success? && SuggestionKey in m && m[SuggestionKey].Str? ==> r.value.suggestion == Some(m[SuggestionKey].s)
  {
    var compliant := BoolField(m, ComplianceKey(schema));
    var suggestion: Result<Option<string>, FieldError> :=
      if SuggestionKey !in m || m[SuggestionKey] == Null then Success(None)
      else if m[SuggestionKey].Str? then Success(Some(m[SuggestionKey].s))
      else Failure(FieldError([SuggestionKey], NotAString));
    var errors := ErrorsOf(compliant) + ErrorsOf(suggestion);
    if errors == [] then Success(VerdictRequest(compliant.value, suggestion.value)) else Failure(errors)
  }

  /** The errors of a nested model, reported under the outer field name. */
  function Under(key: string, errors: seq<FieldError>): (r: seq<FieldError>)
    ensures |r| == |errors|
    ensures forall i :: 0 <= i < |r| ==> r[i] == FieldError([key] + errors[i].path, errors[i].problem)
  {
    if errors == [] then [] else [FieldError([key] + errors[0].path, errors[0].problem)] + Under(key, errors[1..])
  }

  /** A nested question request under `key`. */
  function NestedQuestion(schema: Schema, m: Record, key: string): (r: Result<QuestionRequest, seq<FieldError>>)
    ensures r.Success? <==> key in m && m[key].Object? && ParseQuestion(schema, m[key].fields).Success?
    ensures r.Success? ==> r == ParseQuestion(schema, m[key].fields)
  {
    if key !in m then Failure([FieldError([key], Missing)])
    else if !m[key].Object? then Failure([FieldError([key], NotAnObject)])
    else
      match ParseQuestion(schema, m[key].fields)
      case Success(q) => Success(q)
      case Failure(errors) => Failure(Under(key, errors))
  }

  /** A nested verification-result request under `key`. */
  function NestedVerdict(schema: Schema, m: Record, key: string): (r: Result<VerdictRequest, seq<FieldError>>)
    ensures r.Success? <==> key in m && m[key].Object? && ParseVerdict(schema, m[key].fields).Success?
    ensures r.Success? ==> r == ParseVerdict(schema, m[key].fields)
  {
    if key !in m then Failure([FieldError([key], Missing)])
    else if !m[key].Object? then Failure([FieldError([key], NotAnObject)])
    else
      match ParseVerdict(schema, m[key].fields)
      case Success(v) => Success(v)
      case Failure(errors) => Failure(Under(key, errors))
  }

  const ExamQuestionKey := "exam_question"
  const VerificationResultKey := "verification_result"
  const MaxFixAttemptsKey := "max_fix_attempts"

  const DefaultMaxFixAttempts := 3
  const MinFixAttempts := 1
  const MaxFixAttempts := 5

  /** `max_fix_attempts`: an integer from 1 to 5, 3 when not sent. */
  function FixAttempts(m: Record): (r: Result<int, FieldError>)
    ensures MaxFixAttemptsKey !in m ==> r == Success(DefaultMaxFixAttempts)
    ensures MaxFixAttemptsKey in m ==>
      (r.Success? <==> m[MaxFixAttemptsKey].Int? && MinFixAttempts <= m[MaxFixAttemptsKey].i <= MaxFixAttempts)
    ensures r.Success? ==> MinFixAttempts <= r.value <= MaxFixAttempts
    ensures r.Success? && MaxFixAttemptsKey in m ==> m[MaxFixAttemptsKey] == Int(r.value)
  {
    if MaxFixAttemptsKey !in m then Success(DefaultMaxFixAttempts)
    else
      match m[MaxFixAttemptsKey]
      case Int(i) =>
        if MinFixAttempts <= i <= MaxFixAttempts then Success(i)
        else Failure(FieldError([MaxFixAttemptsKey], OutOfRange(MinFixAttempts, MaxFixAttempts)))
      case _ => Failure(FieldError([MaxFixAttemptsKey], NotAnInt))
  }

  datatype FixRequest = FixRequest(examQuestion: QuestionRequest, verificationResult: VerdictRequest)

  /** The fix request: a question request and a verification-result
      request. */
  function ParseFix(schema: Schema, m: Record): (r: Result<FixRequest, seq<FieldError>>)
    ensures r.Success? <==> NestedQuestion(schema, m, ExamQuestionKey).Success? && NestedVerdict(schema, m, VerificationResultKey).Success?
    ensures r.Success? ==> Success(r.value.examQuestion) == NestedQuestion(schema, m, ExamQuestionKey)
    ensures r.Success? ==> Success(r.value.verificationResult) == NestedVerdict(schema, m, VerificationResultKey)
  {
    var question := NestedQuestion(schema, m, ExamQuestionKey);
    var verdict := NestedVerdict(schema, m, VerificationResultKey);
    var errors := (if question.Failure? then question.error else []) + (if verdict.Failure? then verdict.error else []);
    if question.Success? && verdict.Success? then Success(FixRequest(question.value, verdict.value))
    else Failure(errors)
  }

  datatype VerifyAndFixRequest = VerifyAndFixRequest(examQuestion: QuestionRequest, maxFixAttempts: int)

  /** The verify-and-fix request: a question request and an attempt budget. */
  function ParseVerifyAndFix(schema: Schema, m: Record): (r: Result<VerifyAndFixRequest, seq<FieldError>>)
    ensures r.Success? <==> NestedQuestion(schema, m, ExamQuestionKey).Success? && FixAttempts(m).Success?
    ensures r.Success? ==> Success(r.value.examQuestion) == NestedQuestion(schema, m, ExamQuestionKey)
    ensures r.Success? ==> MinFixAttempts <= r.value.maxFixAttempts <= MaxFixAttempts
    ensures r.Success? && MaxFixAttemptsKey !in m ==> r.value.maxFixAttempts == DefaultMaxFixAttempts
    ensures r.Success? ==> Success(r.value.maxFixAttempts) == FixAttempts(m)
  {
    var question := NestedQuestion(schema, m, ExamQuestionKey);
    var attempts := FixAttempts(m);
    var errors := (if question.Failure? then question.error else []) + ErrorsOf(attempts);
    if question.Success? && attempts.Success? then Success(VerifyAndFixRequest(question.value, attempts.value))
    else Failure(errors)
  }
}
