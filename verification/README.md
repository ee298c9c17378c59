# Exam question verification: a Dafny model

ExamQuestionVerification checks exam questions with a language model and
repairs them. A question has a text, an answer, a type tag, a knowledge
point, a description of that knowledge point and an extra requirement. A
*verification* asks the model whether the question complies. The result is a
verdict: a compliance flag and a suggestion. A *fix* asks the model to
rewrite a non-compliant question following the suggestion. `main` alternates
the two until a verdict is compliant or the budget of attempts is spent. An
HTTP service exposes verification, fixing and verify-and-fix. It validates
and normalises its request bodies and answers with a `{code, message, data}`
envelope. An agent variant offers the two calls as tools. The tools take the
fields one by one and report failures as text.

The model is split into these modules:

- `Wrappers`: `Option` and `Result`.
- `Text`: Python's `str.strip()` over the `str.isspace()` characters.
- `QuestionType`: the `QuestionType` enum with its aliases, and the
  `question_type` validator.
- `Records`: the business records, `ExamQuestion` and `VerificationResult`.
  Also the JSON-like values their dictionaries hold, and `model_dump()` /
  `Model(**d)` between a record and its dictionary.
- `Templates`: choosing and filling the prompt templates.
- `Verifier`: the verification call, the fix call, their tool-function
  variants, and the `main` loop. The loop is a function, and a method with a
  loop is proved equal to it. The fix call, the fix tool and the loop also
  exist as written, reading the undeclared `Compliance` attribute.
- `AgentTools`: the two tool functions of the agent.
- `Requests`: the request models of the HTTP service.
- `Api`: the three endpoints and their envelope.

Every call to a language model is an *oracle* parameter. An oracle receives
the number of calls of its kind made before and the filled prompt. It
answers with the metadata record of the reply, or with an exception. A
prompt is the identity of its template plus the keyword arguments of the
`format` call, in call order. The template texts live in a prompts module
that is not part of this model.

The verdict is modelled as one boolean, `compliant`. The source spells this
field three ways:

- `VerificationResult` declares `is_compliant`.
- `main`, `fix_exam_question` and `fix_exam_question_tool` read
  `Compliance`.
- The service's verification-result request declares `Compliance`.

Reading an attribute that a pydantic model does not declare raises
`AttributeError`. `Records.VerdictAttribute` models that attribute access.
Every read of `Compliance` therefore raises, with these consequences:

- `main` raises as soon as one verification succeeds.
- `fix_exam_question` and `fix_exam_question_tool` raise on every call.
- If api_server.py's records are the ones of schemas.py (see below), the
  fix endpoint and the verify-and-fix endpoint answer every accepted body
  with status 500.

The model states both behaviours. `Verifier.MainAsWritten`,
`Verifier.FixExamQuestionAsWritten`, `Verifier.FixToolAsWritten` and the
`AsWritten` variant of the endpoints read `Compliance`, and the lemmas about
them state the exceptions. `Verifier.MainLoop`, `Verifier.FixExamQuestion`,
`Verifier.FixTool` and the `Corrected` variant of the endpoints read the
declared flag. The loop properties are stated about this corrected reading.
Findings lists each read.

The request models exist twice, once in api_server.py and once in
src/ExamQuestionVerification/schemas.py. `Requests.Schema` selects which
one. The two differ in three places:

- The type-tag rule. api_server.py accepts a literal of ten tags. schemas.py
  accepts any string after normalising it. `Schemas(AsWritten)` uses the
  normaliser as written, and `Schemas(Corrected)` the one with the alias
  lookup.
- The name of the verdict field.
- The endpoints: they use the api_server.py models.

api_server.py imports `ExamQuestion` and `VerificationResult` from a module
`src.exam_question_verification`, which is not part of this model. The model
binds those names to the records of src/ExamQuestionVerification/schemas.py,
the only definitions available. This binding is uncertain: src/eqv_agent.py
imports the same module and builds `VerificationResult(Compliance=...)`
(src/eqv_agent.py:147-150), so the record api_server.py uses may declare
`Compliance`. Every as-written endpoint result below holds under the binding
only.

The endpoints take a `Variant` too. `AsWritten` converts the
verification-result request as api_server.py does, and calls the fix call
and `main` as written. `Corrected` carries the flag over under its declared
name and uses the corrected fix call and loop.

## Model

| member | source | states |
|---|---|---|
| `Text.Strip` | src/ExamQuestionVerification/schemas.py:72-76 | The result is the input with every leading and trailing whitespace character cut away. All cut characters are whitespace, and the kept part neither starts nor ends with whitespace. |
| `Text.StripIdempotent` | src/ExamQuestionVerification/schemas.py:72-76 | Stripping twice gives the same as stripping once. |
| `Text.StripIgnoresPadding` | api_server.py:76-79 | Whitespace added on either side of a string does not change its stripped form. |
| `QuestionType.MembersAreCanonical` | src/ExamQuestionVerification/schemas.py:17-30 | Iterating the enum yields exactly the five English members, in declaration order. The five Chinese names repeat values already declared, so they become aliases rather than members. |
| `QuestionType.ChineseNamesAreAliases` | src/ExamQuestionVerification/schemas.py:19-30 | Each Chinese name is declared with the value of its English counterpart, and it is not itself a member. |
| `QuestionType.NormalizeQuestionType` | src/ExamQuestionVerification/schemas.py:79-88 | This is the validator as written. An enum member and a non-string pass unchanged. A string equal to the value or the name of a member becomes that member. Any other string is returned unchanged, so nothing is rejected. |
| `QuestionType.ChineseTagNotNormalized` | src/ExamQuestionVerification/schemas.py:83-87 | As written, every Chinese tag comes back as a plain string, not as the member it names. |
| `QuestionType.NormalizeQuestionTypeWithAliases` | src/ExamQuestionVerification/schemas.py:79-88 | This is the corrected validator. It adds the Chinese alias names to the lookup, so all three names of a kind map to its member. Other strings pass unchanged. |
| `QuestionType.AliasesNormalizeAlike` | src/ExamQuestionVerification/schemas.py:84-87 | With the alias lookup, the Chinese and the English tag of a kind normalise to the same member. |
| `Records.DumpQuestion` | src/ExamQuestionVerification/schemas.py:34-41 | The dump has exactly the six field names as keys, and each key holds its field's text. |
| `Records.LoadQuestion` | src/ExamQuestionVerification/schemas.py:34-41 | Constructing from a dictionary succeeds exactly when all six fields are present as strings. On success each field holds the dictionary's entry. On failure there is a validation error with one to six field errors. |
| `Records.LoadDumpQuestion` | src/ExamQuestionVerification/schemas.py:34-41 | Loading a dumped question gives back the same question. |
| `Records.DumpLoadQuestion` | src/ExamQuestionVerification/schemas.py:34-41 | Dumping a loaded question restores every field entry of the dictionary it came from. |
| `Records.DumpVerdict` | src/ExamQuestionVerification/schemas.py:44-47 | The dump has exactly the keys `is_compliant` and `suggestion`, holding the flag and the text. |
| `Records.LoadVerdict` | src/ExamQuestionVerification/schemas.py:44-47 | Loading succeeds exactly when there is a boolean `is_compliant` and a string `suggestion`. Otherwise it is a validation error. |
| `Records.LoadDumpVerdict` | src/ExamQuestionVerification/schemas.py:44-47 | Loading a dumped verdict gives back the same verdict. |
| `Records.VerdictAttribute` | src/ExamQuestionVerification/schemas.py:44-47 | Reading an attribute of a verdict succeeds exactly for the two declared fields, and gives the value the dump holds under that name. Any other name raises an attribute error naming it. |
| `Records.ComplianceNotDeclared` | src/ExamQuestionVerification/exam_question_verification.py:51 | Reading `Compliance` from any verdict raises an attribute error. Reading `is_compliant` gives the flag. |
| `Templates.SelectTemplate` | src/ExamQuestionVerification/exam_question_verification.py:120-133 | A tag of a kind, English or Chinese, selects that kind's dedicated template. A string that is no tag selects the generic template, formatted with that string. |
| `Templates.SelectTemplateIff` | src/ExamQuestionVerification/exam_question_verification.py:120-133 | A kind's dedicated template is chosen exactly for that kind's tags. The generic template is chosen exactly for strings that are no tag. |
| `Templates.BothLanguagesAlike` | src/ExamQuestionVerification/eqv_agent.py:93-102 | The English and the Chinese tag of every kind select the same dedicated template. |
| `Templates.SelectToolTemplate` | src/ExamQuestionVerification/exam_question_verification.py:169-180 | In the tool variant, every kind except short answer keeps its dedicated template. Short-answer tags and non-tags select the generic template. |
| `Templates.ToolSelectionDiverges` | src/ExamQuestionVerification/exam_question_verification.py:169-180 | The two template chains disagree exactly on the two short-answer tags. For those, the tool variant selects the generic template. |
| `Templates.VerificationSlots` | src/ExamQuestionVerification/exam_question_verification.py:134-140 | The template is filled with exactly five names, in order: question, answer, knowledge point, its description, extra requirement. Each name holds the question's value for that field. |
| `Templates.VerificationPrompt` | src/ExamQuestionVerification/exam_question_verification.py:120-140 | The verification prompt uses the selected template and the five slots, whose values agree with the question's dump. |
| `Templates.ToolVerificationPrompt` | src/ExamQuestionVerification/exam_question_verification.py:169-187 | The tool prompt uses the tool chain's template and the same slots as the verification prompt. |
| `Templates.VerificationPromptIff` | src/ExamQuestionVerification/exam_question_verification.py:120-140 | Two questions give the same verification prompt exactly when they agree on the five formatted fields and their tags lead to the same template. |
| `Templates.FixPrompt` | src/ExamQuestionVerification/exam_question_verification.py:223-231 | The fix prompt always uses the fix template, whatever the type. Its slots are the six question fields plus the suggestion, with values matching the dump. |
| `Templates.FixPromptInjective` | src/ExamQuestionVerification/exam_question_verification.py:223-231 | Equal fix prompts come from equal questions and equal suggestions, so nothing is lost. |
| `Verifier.VerifyExamQuestion` | src/ExamQuestionVerification/exam_question_verification.py:102-144 | If the judge raises on the verification prompt, that exception propagates. If it replies, the result is exactly its reply loaded as a `VerificationResult`. The call succeeds exactly when the judge replies with a loadable verdict. |
| `Verifier.FixExamQuestion` | src/ExamQuestionVerification/exam_question_verification.py:203-234 | This reads the declared flag. A compliant verdict returns the question itself. Otherwise, if the rewriter raises on the fix prompt, that exception propagates. If it replies, the result is exactly its reply loaded as an `ExamQuestion`, which succeeds exactly when the reply holds the six fields as strings. |
| `Verifier.FixExamQuestionAsWritten` | src/ExamQuestionVerification/exam_question_verification.py:203-214 | As written, every call raises the attribute error for `Compliance`, compliant verdict or not, and the model is never asked. |
| `Verifier.CompliantFixSkipsModel` | src/ExamQuestionVerification/exam_question_verification.py:213-214 | On a compliant verdict the result does not depend on the rewriter, and it is the input. |
| `Verifier.VerifyTool` | src/ExamQuestionVerification/exam_question_verification.py:146-201 | The verification tool asks the judge with the tool prompt. If the judge replies, the report is exactly the dumped question beside that reply, unconverted. If the judge raises, that exception propagates. |
| `Verifier.VerifyToolAgrees` | src/ExamQuestionVerification/exam_question_verification.py:169-189 | For every tag other than the short-answer tags, the tool sends the same prompt as the verification call. The tool raises exactly when the verification call's judge does, with the same exception. A verdict of the verification call is what the tool's reported reply loads as. |
| `Verifier.FixTool` | src/ExamQuestionVerification/exam_question_verification.py:236-291 | This reads the declared flag. The fix tool hands back the dumped input on a compliant verdict. Otherwise a reply of the rewriter is handed back unchanged, and an exception of the rewriter propagates. |
| `Verifier.FixToolAsWritten` | src/ExamQuestionVerification/exam_question_verification.py:236-256 | As written, every call raises the attribute error for `Compliance`. |
| `Verifier.FixToolAgrees` | src/ExamQuestionVerification/exam_question_verification.py:256-264 | Whenever the fix call yields a question, the fix tool hands back a record that loads as that same question. |
| `Verifier.Outcome` | src/ExamQuestionVerification/exam_question_verification.py:62 | `main` raises exactly when an exception ended the loop, and then it raises that exception. Otherwise it returns the newest question of the history. |
| `Verifier.Rounds` | src/ExamQuestionVerification/exam_question_verification.py:44 | `range(budget)` runs `budget` times when the budget is positive and never otherwise. |
| `Verifier.LoopKeepsHistory` | src/ExamQuestionVerification/exam_question_verification.py:41-56 | The loop only appends to the history: the history it starts from is a prefix of the final one. |
| `Verifier.MainLoopConsistent` | src/ExamQuestionVerification/exam_question_verification.py:41-57 | Every run fits the loop's description. The history starts from the input. Verification call `i` judged `history[i]`. Fix call `i` received that question and its non-compliant verdict, and produced `history[i+1]`. Each ending (compliant, budget spent, raised) sets the call counts. |
| `Verifier.CallBudget` | src/ExamQuestionVerification/exam_question_verification.py:44-56 | The verifier is called at most `budget` times. The fixer is never called more often than the verifier. |
| `Verifier.ZeroBudget` | src/ExamQuestionVerification/exam_question_verification.py:41-44 | With a budget of 0 or less, nothing is called and the input is returned. |
| `Verifier.FirstVerdictCompliant` | src/ExamQuestionVerification/exam_question_verification.py:47-52 | If the first verdict is compliant, the verifier is called once, the fixer never, and the input is returned. |
| `Verifier.VerifyFixCompliantFirst` | src/ExamQuestionVerification/exam_question_verification.py:44-52 | With the verification and fix calls, and for any budget, a compliant first verdict on the input makes `main` return the input. |
| `Verifier.MainAsWrittenRaises` | src/ExamQuestionVerification/exam_question_verification.py:44-52 | As written, a budget of 0 or less returns the input. With a positive budget, `main` raises the verifier's exception, or, once the first verification succeeds, the attribute error for `Compliance`. Where that first verdict is compliant, the loop reading the declared flag returns the input instead. |
| `Verifier.CallCounts` | src/ExamQuestionVerification/exam_question_verification.py:44-56 | When the budget is spent, there are `budget` verification calls and `budget` fix calls. A compliant ending has one fix call fewer than verification calls. Without an exception, the history holds one question more than there were fix calls. |
| `Verifier.StopsAtFirstCompliant` | src/ExamQuestionVerification/exam_question_verification.py:51-52 | Every verdict before the last is non-compliant. A compliant ending returns the very question that was judged compliant. |
| `Verifier.ErrorsPropagate` | src/ExamQuestionVerification/exam_question_verification.py:47-55 | When `main` raises, the exception is the one raised by the last call made, verification or fix. |
| `Verifier.IterateMain` | src/ExamQuestionVerification/exam_question_verification.py:41-62 | For any verification and fix steps, the method with the loop produces exactly the run of the functional definition, and returns that run's outcome. |
| `Verifier.VerifyAndFix` | src/ExamQuestionVerification/exam_question_verification.py:32-62 | With the verification and fix calls, the method produces exactly the run of `main` and returns its outcome. |
| `AgentTools.AgentVerificationPrompt` | src/ExamQuestionVerification/eqv_agent.py:93-113 | The verification tool fills the same template, with the same five slots, as the verification call does for the question built from its arguments. |
| `AgentTools.VerifyToolText` | src/ExamQuestionVerification/eqv_agent.py:92-132 | The tool's text carries the judge's record under the result heading exactly when the judge succeeds. Otherwise it carries the exception under the interruption heading. |
| `AgentTools.VerifyToolAgrees` | src/ExamQuestionVerification/eqv_agent.py:92-132 | Where the verification call yields a verdict, the tool reports the record that verdict loads from. Where the tool reports an interruption, the verification call raises that exception. |
| `AgentTools.AgentFixPrompt` | src/ExamQuestionVerification/eqv_agent.py:158-166 | The fix tool fills the fix template with the six fields and the suggestion, the same as the fix call. |
| `AgentTools.FixToolText` | src/ExamQuestionVerification/eqv_agent.py:157-184 | The fix tool's text carries the rewrite under its heading exactly when the rewriter succeeds. Otherwise it carries the exception under the interruption heading. |
| `AgentTools.FixToolAgreesOnNonCompliant` | src/ExamQuestionVerification/eqv_agent.py:157-184 | On a non-compliant verdict with the same suggestion, a question the fix call produces is what the tool's record loads as. A tool interruption is the fix call's exception. |
| `Requests.StripStrings` | src/ExamQuestionVerification/schemas.py:68-76 | A string value becomes its stripped form. Every other value passes unchanged. |
| `Requests.StripStringsIdempotent` | src/ExamQuestionVerification/schemas.py:68-76 | Applying the validator twice is the same as applying it once. |
| `Requests.LiteralTagsAreTags` | api_server.py:50-61 | The type literal admits exactly the English and the Chinese tag of each of the five kinds. |
| `Requests.RequiredText` | api_server.py:48-49 | A required text is accepted exactly when it is a string whose stripped form has at least the minimum length. The stripped form is kept. |
| `Requests.OptionalText` | api_server.py:62-70 | A missing optional text defaults to the empty string, with no stripping. A string is stripped. `null` is kept as no value. Anything else is refused. |
| `Requests.TypeTagRule` | api_server.py:50-61 | api_server.py accepts exactly a string that is one of the ten tags, unstripped, and keeps it. schemas.py accepts every string, and the English tag or member name of a kind becomes its English tag. As written, a Chinese tag is kept as sent. With the alias lookup it becomes the English tag. |
| `Requests.LiteralTagRule` | api_server.py:50-61 | On one value, the literal accepts exactly a string that is a tag of some kind, and keeps it unchanged. |
| `Requests.NormalizedTagRule` | src/ExamQuestionVerification/schemas.py:79-88 | On one value, both normalisers accept exactly the strings. The English tag or member name of a kind becomes its English tag. A Chinese tag is kept as sent with the normaliser as written, and becomes the English tag with the alias lookup. |
| `Requests.NormalizedTagAccepts` | src/ExamQuestionVerification/schemas.py:79-88 | Every string passes either normaliser, and nothing else does. |
| `Requests.EnglishTagNormalized` | src/ExamQuestionVerification/schemas.py:84-86 | The English tag and the member name of a kind become its English tag, with either normaliser. |
| `Requests.ChineseTagNormalized` | src/ExamQuestionVerification/schemas.py:83-87 | A Chinese tag is kept as sent with the normaliser as written, and becomes the English tag with the alias lookup. |
| `Requests.ParseQuestion` | api_server.py:46-79 | A refused question request reports between one and six field errors, collected from all fields. |
| `Requests.ParseQuestionIff` | api_server.py:46-79 | A question request is accepted exactly when every field is: question at least 5 and answer at least 1 after stripping, an admitted type tag, and each optional text absent, a string or `null`. |
| `Requests.ParsedTextsStripped` | api_server.py:72-79 | An accepted question and answer are the stripped texts that were sent. They are at least 5 and 1 characters long, and stripping them again changes nothing. |
| `Requests.ParsedFields` | api_server.py:46-79 | An accepted question request holds exactly the type tag and the three optional texts that their field rules produce from what was sent. |
| `Requests.ParsedFieldsSent` | api_server.py:50-79 | In an accepted question request, each optional text that was sent as a string is kept stripped, and one sent as `null` is kept as no value. With the api_server.py model, the type tag is the literal sent, unchanged. |
| `Requests.OptionalDefaults` | api_server.py:62-70 | Optional texts that were not sent are the empty string in the accepted request. |
| `Requests.PaddingIgnored` | api_server.py:72-79 | Whitespace around any sent text other than the type tag changes neither whether the request is accepted nor what it holds. |
| `Requests.ParseVerdict` | api_server.py:95-97 | A verification-result request is accepted exactly when its flag is a boolean and its suggestion, if sent, is a string or `null`. A missing or `null` suggestion is no value, and a sent string is kept. |
| `Requests.NestedQuestion` | api_server.py:100-102 | A nested question request is accepted exactly when the field holds an object that the question request model accepts. |
| `Requests.NestedVerdict` | api_server.py:100-102 | A nested verification-result request is accepted exactly when the field holds an object that the verification-result model accepts. |
| `Requests.FixAttempts` | api_server.py:119-121 | `max_fix_attempts` defaults to 3. A sent value is accepted exactly when it is an integer from 1 to 5, and it is kept. |
| `Requests.ParseFix` | api_server.py:100-102 | A fix request is accepted exactly when both nested requests are, and it holds them. |
| `Requests.ParseVerifyAndFix` | api_server.py:117-121 | A verify-and-fix request is accepted exactly when its question and its attempt budget are. The accepted budget lies in 1..5, it is 3 when not sent, and a sent budget is kept as sent. |
| `Api.Respond` | api_server.py:216-224 | A result becomes a success envelope, `is_success`, carrying the data. An exception becomes an envelope that is not `is_success`, with the endpoint's prefix and the exception. |
| `Api.ToExamQuestion` | api_server.py:217 | With schemas.py's `ExamQuestion` as the imported record, converting a validated question request succeeds exactly when none of its optional texts is `null`. Then every field is carried over. |
| `Api.ToVerdict` | src/ExamQuestionVerification/schemas.py:44-47 | Converting a validated verification-result request succeeds exactly when it has a suggestion. Then the flag and the suggestion are carried over. |
| `Api.ToVerdictAsWritten` | api_server.py:236 | With schemas.py's `VerificationResult` as the imported record, converting any validated verification-result request fails, because `is_compliant` is missing. |
| `Api.FixRequestNeverConverts` | api_server.py:233-243 | With schemas.py's records as the imported ones, for every fix request api_server.py accepts, the as-written conversion raises, so the as-written endpoint answers with status 500 and no success. The corrected conversion succeeds whenever a suggestion was sent. |
| `Api.VerifyEndpoint` | api_server.py:215-224 | The verify endpoint refuses the body exactly when the request model does. |
| `Api.FixEndpoint` | api_server.py:233-243 | In either variant, the fix endpoint refuses the body exactly when the request model does. |
| `Api.VerifyAndFixEndpoint` | api_server.py:252-263 | In either variant, the verify-and-fix endpoint refuses the body exactly when the request model does. |
| `Api.VerifyDataResult` | api_server.py:217-219 | The verify endpoint's data is the dumped verdict of the verification call on the converted question. An exception of the conversion or of the call is passed on unchanged. |
| `Api.VerifyEndpointResult` | api_server.py:215-224 | For every accepted body, the verify endpoint answers status 200 with the dumped verdict of the verification call on the converted question, or status 500 with the exception of the conversion or of the call. |
| `Api.FixDataResult` | api_server.py:234-238 | With the corrected conversion, the fix endpoint's data is the dumped result of the fix call on the converted question and verdict. An exception of either conversion or of the call is passed on unchanged. |
| `Api.FixEndpointResult` | api_server.py:233-243 | With the corrected conversion, for every accepted body whose question and verdict convert, the fix endpoint answers status 200 with the dumped fixed question, or status 500 with the fix call's exception. |
| `Api.VerifyAndFixDataResult` | api_server.py:253-258 | With the corrected loop, the verify-and-fix data is the dumped outcome of `main` on the converted question with the accepted budget. An exception of the conversion or of `main` is passed on unchanged. |
| `Api.VerifyAndFixEndpointResult` | api_server.py:252-263 | With the corrected loop, for every accepted body whose question converts, the verify-and-fix endpoint answers status 200 with the dumped outcome of `main`, or status 500 with `main`'s exception. |
| `Api.EndpointsWellFormed` | api_server.py:215-263 | In either variant, each endpoint answers one of two ways, and success, `is_success`, means code 0. Success is status 200, message "ok" and data. Failure is status 500, code 500, an error message and no data. No exception escapes. |
| `Api.FixEndpointCompliant` | api_server.py:233-238 | With the corrected conversion and fix call, a compliant verdict with a suggestion returns the validated question with status 200, for every rewriter. |
| `Api.FixDataCompliant` | api_server.py:234-237 | With the corrected conversion and fix call, a compliant verdict with a suggestion yields the dumped validated question. |
| `Api.FixWithoutSuggestionFails` | api_server.py:233-243 | In either variant, a fix request without a suggestion passes validation, but it always ends with status 500. |
| `Api.FixDataWithoutSuggestion` | api_server.py:235 | In either variant, a request without a suggestion raises before the fix call. |
| `Api.VerifyAndFixAsWrittenFails` | api_server.py:252-263 | With schemas.py's records as the imported ones, the as-written verify-and-fix endpoint ends every accepted body with status 500. When the question converts and the first verification succeeds, the cause is the missing `Compliance` attribute. |
| `Api.VerifyAndFixDataAsWrittenFails` | api_server.py:253-257 | With schemas.py's records as the imported ones and a positive budget, the as-written computation always raises, and it raises the missing `Compliance` attribute once a verification succeeds. |
| `Api.VerifyAndFixCompliantFirst` | api_server.py:252-258 | With the corrected loop, when the first verdict is compliant, verify-and-fix returns the validated question with status 200. |
| `Api.VerifyAndFixDataCompliant` | api_server.py:253-257 | With the corrected loop, a compliant first verdict yields the dumped validated question. |

## Left out

- Language-model calls are oracle parameters. This leaves out the agents, their memory, the system prompts, and the parsing of structured output into `res.metadata`.
- Prompt template texts are left out, because the prompts module is not part of this model. A template is identified by its kind. Placeholders inside a type tag (braces in the second `format` call of the generic template) are not modelled.
- Exception texts are not modelled. An exception is a validation error listing its field errors, or a runtime failure with an opaque message. The text of the envelope's message is represented by its prefix and the exception.
- The attribute error raised by reading `Compliance` is modelled only up to its name. Python's message text is left out.
- Verifier.MainLoop, Verifier.VerifyAndFix and the loop lemmas after them (call counts, stopping at the first compliant verdict, error propagation): these describe the loop reading the declared `is_compliant`. As written, `main` raises once a verification succeeds, as `Verifier.MainAsWrittenRaises` states, so these properties hold only for the corrected reading.
- Verifier.FixExamQuestion and Verifier.FixToolAgrees: these state the fix call that reads the declared flag. As written every call raises, as `Verifier.FixExamQuestionAsWritten` states.
- Verifier.FixTool: this states the tool that reads the declared flag. As written every call raises, as `Verifier.FixToolAsWritten` states.
- Api.FixEndpointCompliant: this holds only for the `Corrected` variant. As written every accepted fix body gets status 500, as `Api.FixRequestNeverConverts` states.
- Api.VerifyAndFixCompliantFirst: this holds only for the `Corrected` variant. As written every accepted verify-and-fix body gets status 500, as `Api.VerifyAndFixAsWrittenFails` states.
- Pydantic's lax coercions are left out. A number or string does not become a boolean, and a float or string does not become an integer. Only exact JSON types are accepted. The refusal by the validator's `Union` member of a string is also left out.
- The wording of field errors is left out, and so is the framework's 422 response body. The refusal is the list of field errors.
- JSON formatting is left out, including `json.dumps` in the tool replies and printing `res.metadata`. A tool's text is its heading plus the record.
- Dictionary inputs to the tool functions are left out. The model takes the records directly.
- The numbering of oracle calls is left out. Each call counts calls of its own kind within one operation. The agents' conversation memory, which persists across calls, is not modelled.
- `agent_main`, the `build_*` helpers, the runtime and deployment files, fastapi_server.py, the `/` and `/health` routes, CORS, uvicorn start-up, configuration loading and every `print` are left out. They hold no logic of the core.
- `Requests.ParseQuestion`: its own contract states only the size of the error list. Acceptance is stated field by field in `Requests.ParseQuestionIff`. What an accepted request holds is stated in `Requests.ParsedTextsStripped` for the question and answer, and in `Requests.ParsedFields`, `Requests.ParsedFieldsSent` and `Requests.OptionalDefaults` for the type tag and the optional texts.
- `Api.VerifyEndpoint`, `Api.FixEndpoint` and `Api.VerifyAndFixEndpoint`: their own contracts state only when a body is refused. The envelope shapes are in `Api.EndpointsWellFormed`. The replies for accepted bodies are in `Api.VerifyEndpointResult`, `Api.FixEndpointResult` and `Api.VerifyAndFixEndpointResult`, the last two for the `Corrected` variant.
- Api.ToExamQuestion, Api.ToVerdictAsWritten, Api.FixRequestNeverConverts, Api.VerifyAndFixAsWrittenFails and Api.VerifyAndFixDataAsWrittenFails: these bind api_server.py's imported `ExamQuestion` and `VerificationResult` to the records of src/ExamQuestionVerification/schemas.py. The module api_server.py imports them from, `src.exam_question_verification`, is not part of this model, and schemas.py holds the only definitions available. src/eqv_agent.py:147-150 builds that module's `VerificationResult` with `Compliance=`, so it may declare `Compliance`. Under such a record the as-written fix conversion would succeed, the as-written endpoints need not answer 500, and a `null` optional text might be accepted. These members promise their results only under the binding.
- Verifier.MainLoop: the default `max_fix_attempts=3` of `main`'s signature is not modelled. Every caller in the core passes the budget explicitly, and the request model's own default of 3 is in `Requests.FixAttempts`.

## Findings

| source | as written | input that shows it | evidently intended | confidence | as-written member | corrected member |
|---|---|---|---|---|---|---|
| src/ExamQuestionVerification/schemas.py:83-87 | The normaliser iterates `QuestionType` and compares each member's value and name. Iteration skips aliases, so the Chinese names are never compared, even though the comment says Chinese members are matched directly. | `question_type = "简答题"` stays the string `"简答题"` instead of becoming `QuestionType.BRIEF_ANSWER`. | Look up all names, including aliases, so that both tags of a kind become its member. | medium, not executed | `QuestionType.ChineseTagNotNormalized` | `QuestionType.NormalizeQuestionTypeWithAliases` |
| src/ExamQuestionVerification/exam_question_verification.py:51 | `main` tests `verification_result.Compliance`, an attribute `VerificationResult` does not declare, so reading it raises `AttributeError`. | Any question and a budget of 1 or more, with a judge that replies `{"is_compliant": true, "suggestion": ""}`, raise instead of returning the question. | Test the declared `is_compliant`. | high, not executed | `Verifier.MainAsWrittenRaises` | `Verifier.VerifyFixCompliantFirst` |
| src/ExamQuestionVerification/exam_question_verification.py:213 | `fix_exam_question` tests the same undeclared attribute before anything else. | Any question with the verdict `VerificationResult(is_compliant=True, suggestion="")` raises instead of returning the question. | Test the declared `is_compliant`. | high, not executed | `Verifier.FixExamQuestionAsWritten` | `Verifier.CompliantFixSkipsModel` |
| src/ExamQuestionVerification/exam_question_verification.py:256 | `fix_exam_question_tool` tests the same undeclared attribute. | Any question with the verdict `VerificationResult(is_compliant=True, suggestion="")` raises instead of handing the question back. | Test the declared `is_compliant`. | high, not executed | `Verifier.FixToolAsWritten` | `Verifier.FixTool` |
| api_server.py:236 | The fix endpoint builds `VerificationResult` from a dump whose flag is keyed `Compliance`. The business model declares `is_compliant` and ignores unknown keys, so the flag is always missing. | `{"verification_result": {"Compliance": false, "suggestion": "拆分题干"}, "exam_question": …}` always yields a 500 envelope. | Carry the flag over under the business model's name. | low, not executed; it assumes api_server.py's `VerificationResult` is the one of schemas.py, while src/eqv_agent.py:147-150 builds the imported one with `Compliance=` | `Api.ToVerdictAsWritten` | `Api.ToVerdict` |

`Requests.TypeTag` takes the normaliser as a parameter of the schemas.py
request model. `Requests.ChineseTagNormalized` states both versions. The
endpoints take the conversion, the fix call and the loop as a `Variant`.
`Api.FixRequestNeverConverts` and `Api.VerifyAndFixAsWrittenFails` state the
as-written endpoints. `Api.FixEndpointCompliant` and
`Api.VerifyAndFixCompliantFirst` state the corrected ones.
