/** Choosing and filling the prompt templates that the verifier and the fixer
    send to the language model. The template texts live in a prompts module
    that is not part of this model: a template is identified by which one it
    is, and a filled prompt by the values substituted into its slots. */
module Templates {
  import opened Records
  import opened QuestionType

  /** A dedicated verification template per kind, the generic verification
      template (already formatted with the question type), or the one fix
      template. */
  datatype Template = Dedicated(kind: Kind) | Generic(questionType: string) | Fix

  /** One keyword argument of a `format` call: a placeholder name and the
      value put in its place. */
  datatype Slot = Slot(name: string, value: string)

  /** A template together with the keyword arguments its `format` call
      receives, in the order of the call. */
  datatype Prompt = Prompt(template: Template, slots: seq<Slot>)

  function SlotNames(slots: seq<Slot>): (names: seq<string>)
    ensures |names| == |slots| && forall i :: 0 <= i < |slots| ==> names[i] == slots[i].name
  {
    if slots == [] then [] else [slots[0].name] + SlotNames(slots[1..])
  }

  /** No string is a tag of two different kinds. */
  lemma TagsApart()
    ensures forall t, k1, k2 :: IsTagOf(t, k1) && IsTagOf(t, k2) ==> k1 == k2
  {
    forall t, k1, k2 | IsTagOf(t, k1) && IsTagOf(t, k2) ensures k1 == k2 {
      NamesApart(k1, k2);
      NamesApart(k2, k1);
    }
  }

  /** The `if`/`elif` chain of `verify_exam_question`: each kind is matched
      under its English and its Chinese tag, and anything else falls to the
      generic template. */
  function SelectTemplate(questionType: string): (r: Template)
    ensures forall k :: IsTagOf(questionType, k) ==> r == Dedicated(k)
    ensures (forall k :: !IsTagOf(questionType, k)) ==> r == Generic(questionType)
  {
    TagsApart();
    if IsTagOf(questionType, SingleChoice) then Dedicated(SingleChoice)
    else if IsTagOf(questionType, MultiChoice) then Dedicated(MultiChoice)
    else if IsTagOf(questionType, FillBlank) then Dedicated(FillBlank)
    else if IsTagOf(questionType, BriefAnswer) then Dedicated(BriefAnswer)
    else if IsTagOf(questionType, Calculation) then Dedicated(Calculation)
    else Generic(questionType)
  }

  /** A dedicated template is chosen exactly for the tags of its kind, and the
      generic template exactly for strings that are no tag, carrying the
      string unchanged. */
  lemma SelectTemplateIff(questionType: string, k: Kind)
    ensures SelectTemplate(questionType) == Dedicated(k) <==> IsTagOf(questionType, k)
    ensures SelectTemplate(questionType).Generic? <==> forall k' :: !IsTagOf(questionType, k')
  {
  }

  /** The English and the Chinese tag of a kind select the same template. */
  lemma BothLanguagesAlike(k: Kind)
    ensures SelectTemplate(EnglishTag(k)) == SelectTemplate(ChineseTag(k)) == Dedicated(k)
  {
  }

  /** The chain of `verify_exam_question_tool`, which has no branch for short
      answer questions. */
  function SelectToolTemplate(questionType: string): (r: Template)
    ensures forall k :: k != BriefAnswer && IsTagOf(questionType, k) ==> r == Dedicated(k)
    ensures (forall k :: k == BriefAnswer || !IsTagOf(questionType, k)) ==> r == Generic(questionType)
  {
    TagsApart();
    if IsTagOf(questionType, SingleChoice) then Dedicated(SingleChoice)
    else if IsTagOf(questionType, MultiChoice) then Dedicated(MultiChoice)
    else if IsTagOf(questionType, FillBlank) then Dedicated(FillBlank)
    else if IsTagOf(questionType, Calculation) then Dedicated(Calculation)
    else Generic(questionType)
  }

  /** The two selections disagree exactly on the short answer tags, which the
      tool variant sends to the generic template. */
  lemma ToolSelectionDiverges(questionType: string)
    ensures SelectToolTemplate(questionType) != SelectTemplate(questionType) <==> IsTagOf(questionType, BriefAnswer)
    ensures IsTagOf(questionType, BriefAnswer) ==> SelectToolTemplate(questionType) == Generic(questionType)
  {
    TagsApart();
    if !IsTagOf(questionType, BriefAnswer) && (exists k :: IsTagOf(questionType, k)) {
      var k :| IsTagOf(questionType, k);
      assert SelectToolTemplate(questionType) == Dedicated(k);
    }
  }

  /** The five names the verification templates are formatted with: every
      field of the question except its type. */
  const VerificationKeys: seq<string> := [
    QuestionKey, AnswerKey, KnowledgePointKey, KnowledgePointDescriptionKey, ExtraRequirementKey
  ]

  /** The keyword arguments of the second `format` call of the verification
      functions. */
  function VerificationSlots(q: ExamQuestion): (slots: seq<Slot>)
    ensures SlotNames(slots) == VerificationKeys
    ensures forall i :: 0 <= i < |slots| ==> DumpQuestion(q)[slots[i].name] == Str(slots[i].value)
  {
    [
      Slot(QuestionKey, q.question),
      Slot(AnswerKey, q.answer),
      Slot(KnowledgePointKey, q.knowledgePoint),
      Slot(KnowledgePointDescriptionKey, q.knowledgePointDescription),
      Slot(ExtraRequirementKey, q.extraRequirement)
    ]
  }

  /** The prompt `verify_exam_question` sends. */
  function VerificationPrompt(q: ExamQuestion): (p: Prompt)
    ensures p.template == SelectTemplate(q.questionType)
    ensures SlotNames(p.slots) == VerificationKeys
    ensures forall i :: 0 <= i < |p.slots| ==> DumpQuestion(q)[p.slots[i].name] == Str(p.slots[i].value)
  {
    Prompt(SelectTemplate(q.questionType), VerificationSlots(q))
  }

  /** The prompt `verify_exam_question_tool` sends. */
  function ToolVerificationPrompt(q: ExamQuestion): (p: Prompt)
    ensures p.template == SelectToolTemplate(q.questionType)
    ensures p.slots == VerificationPrompt(q).slots
  {
    Prompt(SelectToolTemplate(q.questionType), VerificationSlots(q))
  }

  /** Two tags lead to the same verification template: they are tags of one
      kind, or the same string that is no tag. */
  predicate SameTemplateTag(t1: string, t2: string) {
    (exists k :: IsTagOf(t1, k) && IsTagOf(t2, k))
    || (t1 == t2 && forall k :: !IsTagOf(t1, k))
  }

  /** The verification prompt carries everything of a question except how its
      type was spelt: two questions give the same prompt exactly when they
      agree on the five formatted fields and their tags lead to the same
      template. */
  lemma VerificationPromptIff(q1: ExamQuestion, q2: ExamQuestion)
    ensures VerificationPrompt(q1) == VerificationPrompt(q2) <==>
      && q1.question == q2.question
      && q1.answer == q2.answer
      && q1.knowledgePoint == q2.knowledgePoint
      && q1.knowledgePointDescription == q2.knowledgePointDescription
      && q1.extraRequirement == q2.extraRequirement
      && SameTemplateTag(q1.questionType, q2.questionType)
  {
    var t1, t2 := q1.questionType, q2.questionType;
    if SelectTemplate(t1) == SelectTemplate(t2) {
      if exists k :: IsTagOf(t1, k) {
        var k :| IsTagOf(t1, k);
        SelectTemplateIff(t2, k);
      } else {
        SelectTemplateIff(t2, SingleChoice);
      }
    }
    if SameTemplateTag(t1, t2) && exists k :: IsTagOf(t1, k) && IsTagOf(t2, k) {
      var k :| IsTagOf(t1, k) && IsTagOf(t2, k);
      assert SelectTemplate(t1) == Dedicated(k) == SelectTemplate(t2);
    }
    var s1, s2 := VerificationSlots(q1), VerificationSlots(q2);
    if s1 == s2 {
      assert s1[0] == s2[0] && s1[1] == s2[1] && s1[2] == s2[2] && s1[3] == s2[3] && s1[4] == s2[4];
    }
  }

  /** The prompt `fix_exam_question` sends: the fix template filled with all
      six question fields and the suggestion, whatever the question type. */
  function FixPrompt(q: ExamQuestion, suggestion: string): (p: Prompt)
    ensures p.template == Fix
    ensures |p.slots| == |QuestionKeys| + 1
    ensures forall i :: 0 <= i < |QuestionKeys| ==> p.slots[i] == Slot(QuestionKeys[i], QuestionFields(q)[i])
    ensures p.slots[|QuestionKeys|] == Slot(SuggestionKey, suggestion)
  {
    Prompt(Fix, [
      Slot(QuestionKey, q.question),
      Slot(AnswerKey, q.answer),
      Slot(QuestionTypeKey, q.questionType),
      Slot(KnowledgePointKey, q.knowledgePoint),
      Slot(KnowledgePointDescriptionKey, q.knowledgePointDescription),
      Slot(ExtraRequirementKey, q.extraRequirement),
      Slot(SuggestionKey, suggestion)
    ])
  }

  /** Nothing of the question or the suggestion is lost in the fix prompt:
      equal prompts come from equal inputs. */
  lemma FixPromptInjective(q1: ExamQuestion, s1: string, q2: ExamQuestion, s2: string)
    requires FixPrompt(q1, s1) == FixPrompt(q2, s2)
    ensures q1 == q2 && s1 == s2
  {
    var p1, p2 := FixPrompt(q1, s1).slots, FixPrompt(q2, s2).slots;
    assert p1[0] == p2[0] && p1[1] == p2[1] && p1[2] == p2[2] && p1[3] == p2[3];
    assert p1[4] == p2[4] && p1[5] == p2[5] && p1[6] == p2[6];
  }
}
