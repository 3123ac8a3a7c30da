# Interview bot: experience heuristic, prompt summaries and answer bookkeeping

This project models, in Dafny, the deterministic logic of the resume-based
interview bot (`interviewbot.py`). The rest of that program calls a language
model, PDF/DOCX readers and Streamlit. The model covers four things:

- **The experience heuristic** (`calculate_experience`). Each work-experience
  record's `"Duration"` (default `"0 years"`) is split on whitespace. Every
  token made only of digits is read as an integer, and all of them are added
  up. `"2019 2021"` counts as 4040 and `"3 years"` as 3. `"3+"` and
  `"2019-2021"` count as nothing.
- **The experience tier.** The total is bucketed into `"0-1 years"`,
  `"2-10 years"` or `"10+ years"`.
- **The summaries** that `generate_interview_questions` computes: the
  experience and projects summaries it prints (lines 77 and 85), and the
  skills summary `skills_text` (line 81). Also the arguments it passes to
  the question prompt (lines 167-180). Each one has its fallback text for a
  missing or empty field.
- **`ui_qa`.** It renders every question with a text area whose widget key is
  `answer_{category}_{i}`. It also stores each text area's value in the
  session's answer dictionary, keyed by the question text.

Modules:

- `Wrappers`: `Option`, which stands for Python's `None` and for an absent
  dictionary key.
- `PyStr`: the Python built-ins the code relies on. These are `str.split()`,
  `str.isdigit()`, `int(word)`, `str(n)` and `sep.join(items)`.
- `ResumeData`: the parsed resume record and its field values.
- `Experience`: `calculate_experience` and the tier.
- `Summaries`: the summaries of lines 77, 81 and 85, the prompt arguments, and
  `PrepareQuestions`. That method models the local steps of
  `generate_interview_questions` in the source's order.
- `Answers`: `ui_qa`, as the `Session` class.

`calculate_experience` and `ui_qa` update state inside loops, so they are
methods with loop invariants. Each is proved equal to a specification
function (`TotalExperience`, `RecordAll`/`Slots`/`Page`), and the lemmas
state the source's properties about those functions. The session's
`user_answer` dictionary is a field of the `Session` class that `UiQa`
reassigns. The tier and the summaries are pure functions.

The proofs bring out these behaviours of the code:

- A reader might expect `"2019 2021"` to count as a two-year span. The code
  adds the two numbers, which gives 4040 (`Experience.YearRangeIsAdded`).
- The comments at lines 207 and 213 call the widget key unique, and it is
  (`Answers.WidgetKeysDistinct`). The answer dictionary is still keyed by the
  question text alone. Equal texts in different categories therefore share
  one entry, which holds the last value written (`Answers.LastWriteWins`).
- Line 82 prints the raw skills value, not `skills_text`. Nothing reads
  `skills_text` afterwards, because line 170 computes its own join of the
  skills.
- The printed project summary (line 85) reads the key `'Technologies Used'`.
  The prompt argument (line 176) reads `'Technologies used'`.
- Line 77 indexes `exp['Role']` and `exp['Company']` before line 172 runs.
  Inside `generate_interview_questions`, the `"Unknown Role"` and
  `"Unknown Company"` fallbacks of line 172 therefore cannot show up
  (`Summaries.ExperienceSummariesAgree`).
- For the skills list `[""]`, line 81's `skills_text` is the empty string.
  At line 170 it falls back to `"No skills listed"`. A skills *string* is joined
  character by character.

## Model

| member | source | states |
|---|---|---|
| `Experience.CalculateExperience` | interviewbot.py:30-37 | the loop's total equals `TotalExperience`: the sum over all records of the values of the all-digit tokens of each Duration |
| `Experience.TotalExperienceAppend` | interviewbot.py:32-36 | the total is additive: total(a + b) == total(a) + total(b) |
| `Experience.DigitTokenSumAppend` | interviewbot.py:35 | the sum over the digit tokens is additive over concatenation of token lists |
| `Experience.DurationYearsOfSpaceJoin` | interviewbot.py:35 | two Durations joined by one whitespace character contribute the sum of what each contributes |
| `Experience.DurationYearsOfWord` | interviewbot.py:35 | a single whitespace-free word contributes its integer value when it is all digits, and 0 when it holds any other character |
| `Experience.DurationYearsOfTwoWords` | interviewbot.py:35 | two words separated by a space contribute the sum of their token values |
| `Experience.MissingDurationContributesZero` | interviewbot.py:34 | a record without a "Duration" key is read as "0 years" and contributes 0 |
| `Experience.EmptyListHasNoExperience` | interviewbot.py:32-37 | an empty list gives a total of 0 |
| `Experience.YearRangeIsAdded` | interviewbot.py:35 | "2019 2021" contributes 4040, because both numbers are added |
| `Experience.YearTokens` | interviewbot.py:35 | the tokens "2019" and "2021" are read as 2019 and 2021 |
| `Experience.NumberBeforeUnitCounts` | interviewbot.py:35 | "3 years" contributes 3 |
| `Experience.BareYearCounts` | interviewbot.py:35 | a bare year "2021" contributes 2021 |
| `Experience.MixedTokensContributeZero` | interviewbot.py:35 | "3+" and "2019-2021" contribute 0, since they are not all digits |
| `Experience.TotalOfTwo` | interviewbot.py:33-36 | the total of two records is the sum of what each record contributes |
| `Experience.NaiveSumExample` | interviewbot.py:30-37 | Durations "3 years" and "2021" total 2024, which falls in the top tier |
| `Experience.TierOf` | interviewbot.py:91-96 | the tier is "0-1" exactly when total <= 1, "2-10" exactly when 1 < total <= 10, and "10+" exactly when total > 10, so every total has exactly one tier |
| `Experience.TierMonotone` | interviewbot.py:91-96 | a larger total never gives a lower tier |
| `Experience.LabelInjective` | interviewbot.py:92-96 | the three tier labels are distinct |
| `Experience.EmptyListIsLowestTier` | interviewbot.py:72-92 | no work experience gives the tier "0-1 years" |
| `PyStr.Tokens` | interviewbot.py:35 | `split()` yields only non-empty tokens that hold no whitespace |
| `PyStr.LeadingWord` | interviewbot.py:35 | the longest whitespace-free prefix: the next character, if any, is whitespace |
| `PyStr.TokensOfSpaceJoin` | interviewbot.py:35 | splitting s + c + t, with c a whitespace character, gives the tokens of s followed by the tokens of t |
| `PyStr.LeadingWordStopsAtSpace` | interviewbot.py:35 | appending text that starts with whitespace does not change the longest whitespace-free prefix |
| `PyStr.TokensOfWord` | interviewbot.py:35 | a non-empty word without whitespace splits into itself alone |
| `PyStr.LeadingWordOfWord` | interviewbot.py:35 | the longest whitespace-free prefix of a whitespace-free string is the whole string |
| `PyStr.TokensOfJoin` | interviewbot.py:35 | round trip: splitting non-empty, whitespace-free words joined by spaces gives the words back |
| `PyStr.DigitsValueOfNatToString` | interviewbot.py:207 | round trip: `int(str(n)) == n` for the index in the widget key |
| `PyStr.NatToStringInjective` | interviewbot.py:207 | distinct indices give distinct `str(i)` |
| `PyStr.NatToString` | interviewbot.py:207 | `str(i)` is a non-empty digit word with no leading zero |
| `PyStr.DigitsValueAppend` | interviewbot.py:35 | appending a digit to a digit word multiplies its `int` value by ten and adds the digit |
| `PyStr.FourDigitsValue` | interviewbot.py:35 | the `int` value of a four-digit word, digit by digit |
| `PyStr.LeadingZeroIgnored` | interviewbot.py:35 | `int` ignores a leading zero, so "007" counts as 7 |
| `PyStr.JoinAppend` | interviewbot.py:77 | joining two non-empty lists puts exactly one separator between their joins |
| `PyStr.JoinEmptyIff` | interviewbot.py:170 | a join is empty exactly when the list is empty or is [""] |
| `PyStr.JoinStartsWithFirst` | interviewbot.py:171-174 | the join of a non-empty list starts with its first item |
| `Summaries.PrepareQuestions` | interviewbot.py:70-180 | the local steps of `generate_interview_questions` give the total, the printed experience and projects summaries (lines 77, 85), line 81's unused `skills_text` and the prompt arguments; the experience level is the tier of the total |
| `Summaries.PrintedSummaryFallbacks` | interviewbot.py:77-85 | for an empty or missing experience, skills or projects value the summary is "Not available"; otherwise it is the items joined with ", ": "Role at Company" for the printed experience summary, the skills themselves (a string's characters) for the unused `skills_text`, and "Name - technologies" for the printed projects summary |
| `Summaries.SkillsArgFallback` | interviewbot.py:170 | the skills argument is "No skills listed" exactly for a missing value, [], [""] or ""; otherwise it is the non-empty join |
| `Summaries.SkillsOfStringAreCharacters` | interviewbot.py:170 | a skills string is joined character by character |
| `Summaries.SkillsSummariesDisagreeOnEmptyItem` | interviewbot.py:170 | for [""], line 81's unused `skills_text` is empty while the argument falls back |
| `Summaries.ExperienceArgShape` | interviewbot.py:171-174 | an empty list gives "No work experience listed"; a non-empty one gives its "Role at Company" items joined, with "Unknown Role"/"Unknown Company" for missing fields |
| `Summaries.ProjectsArgShape` | interviewbot.py:175-178 | an empty list gives "No projects listed"; a non-empty one gives its "Name - Technologies" items joined, with "Unnamed Project"/"Unknown Technologies" for missing fields |
| `Summaries.ExperienceSummariesAgree` | interviewbot.py:171-174 | on a non-empty list whose every entry has Role and Company, as line 77 demands, the experience argument equals the printed experience summary |
| `Summaries.TechnologiesKeyMismatch` | interviewbot.py:85 | a project that lists its technologies under "Technologies used" prints "Not specified" at line 85, but sends the list to the prompt at line 176 |
| `Summaries.TechnologiesKeyMismatchExample` | interviewbot.py:85 | the project "Bot" with ["Python"] prints "Bot - Not specified" and is sent as "Bot - ['Python']" |
| `Summaries.ShowOneItemList` | interviewbot.py:176 | an f-string shows a one-item list as ['x'] |
| `Summaries.PromptLevelIsTier` | interviewbot.py:179 | the experience level in the prompt is one of the three labels, chosen by the total as in lines 91-96 |
| `Answers.Session.UiQa` | interviewbot.py:189-216 | creates the answer map if absent; the new map records every slot in rendering order, each text area returning what was typed or the stored answer (else ""); returns that map and renders the subheaders, question lines and text areas |
| `Answers.Session.AskCategory` | interviewbot.py:197-214 | the inner loop records one category's questions, numbered from 1, and renders them |
| `Answers.BareAndRecordQuestionsAgree` | interviewbot.py:199-204 | a bare string and a dict whose "Question" is that string give the same question text and the same displayed line |
| `Answers.WidgetKeyInjective` | interviewbot.py:207 | equal widget keys `answer_{category}_{i}` come from equal (category, index) pairs |
| `Answers.AfterLastUnderscoreOf` | interviewbot.py:207 | the part of a widget key after its last underscore is `str(i)` |
| `Answers.WidgetKeyDiffers` | interviewbot.py:207 | distinct (category, index) pairs give distinct widget keys |
| `Answers.WidgetKeysDistinct` | interviewbot.py:207-213 | with distinct categories, no two text areas on the page share a widget key |
| `Answers.SlotCategories` | interviewbot.py:193-197 | every text area belongs to one of the question set's categories |
| `Answers.QuestionHasSlot` | interviewbot.py:193-197 | the j-th question of each category gets a text area with index j + 1 |
| `Answers.EveryQuestionHasAnEntry` | interviewbot.py:210 | after `ui_qa` every question text is a key; the keys are the old keys plus the question texts, one entry each |
| `Answers.RecordAllKeys` | interviewbot.py:210 | recording adds exactly the slots' question texts to the keys |
| `Answers.RecordAllLookup` | interviewbot.py:210-212 | each stored answer is the last value typed for that text, else the earlier stored answer, else "" |
| `Answers.RecordAllAppend` | interviewbot.py:193-214 | recording two runs of slots in turn equals recording their concatenation |
| `Answers.OtherEntriesUnchanged` | interviewbot.py:190-216 | entries for texts that are not questions of this set keep their values |
| `Answers.LastWriteWins` | interviewbot.py:210 | a text repeated in several places ends up holding the value of its last text area with input |
| `Answers.NoInputKeepsAnswers` | interviewbot.py:212 | with nothing typed, every stored answer survives a render unchanged |
| `Answers.RerenderIsStable` | interviewbot.py:210-214 | rendering again with the same widget contents leaves the answer map unchanged |
| `Answers.RerenderExample` | interviewbot.py:189-216 | two `ui_qa` calls on a fresh session with the same widget contents give the same answers, whose keys are exactly the question texts |
| `Answers.PageStep` | interviewbot.py:193-194 | rendering one more category appends its subheader, its questions and its slots |
| `Answers.CategoryStep` | interviewbot.py:197-214 | rendering the i-th question of a category appends its line and text area, and performs one more recording |

## Left out

- The language-model calls are not modelled: `extract_resume_data`, the question chain in `generate_interview_questions` and `evaluate_answers` (lines 39-66, the template and chain call at 98-167, the question-parsing fallback at 182-185, and 219-264). They are remote, non-deterministic library calls. `PrepareQuestions` ends with the arguments handed to the chain.
- `json.loads` of the model's output and its `JSONDecodeError` fallback are not modelled. The resume record and the question set are inputs, already parsed.
- PDF and DOCX text extraction (lines 22-28) wraps `pdfplumber` and `docx2txt`, and is not modelled.
- `main()` is not modelled: its Streamlit session wiring and rerun loop (lines 267-318) are user-interface plumbing. `st.subheader`, `st.write` and `st.text_area` become the `Element` list that `UiQa` returns, not actual rendering.
- The value of `st.text_area` comes from the `widgets` map. A key that is present holds what the user typed; an absent key returns the `value=` default. Streamlit's own widget state handling is not modelled.
- The `print` calls (lines 74-86) are not modelled. `PrepareQuestions` returns the total and the summaries as values, including `skills_text`, which line 82 does not print.
- `PyStr.IsDigit` accepts only ASCII digits, and the model counts 0 for any token holding another Unicode digit. Python behaves in two other ways. Decimal digits of other scripts, such as "٣" or "٢٠١٩", pass both `isdigit()` and `int()`, so Python counts them (as 3 and 2019). Digits such as "²" pass `isdigit()` but `int()` rejects them, so `calculate_experience` raises `ValueError`.
- `Answers.AnswerMap` is an unordered map. Python's `user_answer` dictionary keeps insertion order. `ui_qa` returns that dictionary, and line 313 hands it to the evaluation prompt (line 264), so the order of its entries is not modelled.
- `Summaries.PrepareQuestions` requires every work-experience entry to have "Role" and "Company". Without them, line 77 raises `KeyError`, and Python exceptions are not modelled.
- `Experience.CalculateExperience` requires each "Duration" to be a string when present. Any other value makes `.split()` raise `AttributeError`.
- Field values are strings or lists of strings. JSON numbers, booleans, nulls and nested objects are not modelled. Neither are a `q_list` that is not a list, nor a question set that is not a dictionary.
- `ResumeData.Show`: `str()` of a list is written as `['a', 'b']`. Python's escaping of quotes, backslashes and non-printable characters inside the items is not reproduced.
- `Answers.QuestionItem`: a dict's "Question" value is a string or absent (`None`). A list there would be unhashable and raise `TypeError`, which is not modelled.
- fetch.py is not part of this model. Its local content is a constant schema and library calls around database execution of generated SQL.
- `Summaries.QuestionArgs` keeps the `job_description` argument that line 169 passes. The prompt template's variables (line 99) do not name it, and how the template library treats an extra argument is not modelled.
- The unused local `user_answer = {}` in `ui_qa` (line 192) has no counterpart in the model.
