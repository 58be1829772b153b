# Quiz manager: the document parser and the quiz session

This project models the two pieces of logic in `quiz_manager.py`. The rest of that file is user-interface and storage code.

1. **The Word-document question parser** (`is_correct_answer`, `parse_docx`). It walks the paragraphs of a decoded document in order:
   - Blank paragraphs are skipped.
   - A paragraph starts a question when its stripped text matches the question pattern. That pattern is digits followed by `.`, `)` or `/`, or "Câu"/"Bài" (any case), whitespace and a number.
   - A paragraph also starts a question when it is emphasised (a bold run or a "Strong" style) and does not begin with an option label (`A`–`D` or `a`–`d`, then `.`, `)` or `-`).
   - Any other paragraph is an option of the open question. Its label and the whitespace after the label are stripped.
   - An option is marked correct by a "Strong" style, a bold or underlined run, a run coloured exactly red or blue, or stripped text starting with `*`. A later mark overwrites an earlier one.
   - A question is emitted only with two or more options. Its correct option falls back to the first option when none was marked or the mark is empty.
2. **The quiz session.** The source keeps this state in Streamlit's session state:
   - the loaded records;
   - the presentation order (always the identity);
   - the current position;
   - the answers, keyed by question index;
   - the score.

   Loading a topic resets the session. Jump, previous and next move the position within bounds. Committing records an answer and raises the score when the answer is correct.

Files:
- `wrappers.dfy`: `Option`.
- `text.dfy`: Python whitespace, `strip`, prefix and substring tests, and case folding.
- `docx.dfy`: the decoded paragraph, run and colour types.
- `parser.dfy`: the parser.
- `session.dfy`: the session class.

How the parser is modelled:
- `Classify` is the decision table for one paragraph.
- `Step`, `Feed` and `Parse` specify `parse_docx` as a left fold over the classified paragraphs. The last open question is closed at the end.
- `ParseDocx` is the source's loop, with the same mutations of the open question. It is proved equal to `Parse`.
- The lemmas state the properties of `Parse`.

The session is the class `QuizSession.Session`. Its invariant `Valid()` says four things:
- the order is the identity;
- the position is in range;
- answer keys are question indices;
- `score` equals the number of recorded answers that are correct.

Every method keeps `Valid()`, except the as-written commit described under Findings.

The model follows the code where a reader might expect otherwise:
- A later marked option overwrites an earlier one, as line 144 assigns unconditionally.
- Only red (255,0,0) and blue (0,0,255) mark an answer (line 124). No other colour marks an answer.
- An empty marked option, like an unset one, falls back to the first option, because line 138 tests truthiness.
- The order is never shuffled, and there is no mode change (line 179).

## Model

| member | source | states |
|---|---|---|
| Text.StripTrims | quiz_manager.py:133 | `strip()` leaves the slice between leading and trailing whitespace; the result is empty iff the text is all whitespace, else it starts and ends with non-whitespace |
| Text.Contains | quiz_manager.py:121 | `'Strong' in name` holds iff some slice of the name equals the pattern |
| QuizParser.AnyRunMarksAnswer | quiz_manager.py:122-124 | the early-return loop over runs is true iff some run is bold, underlined, or coloured exactly red or blue |
| QuizParser.IsCorrectAnswer | quiz_manager.py:120-125 | an option is marked iff its style name contains "Strong", some run marks it, or its stripped text starts with `*` |
| QuizParser.NumberedLabelMatchesRegex | quiz_manager.py:130 | the greedy digit scan agrees with `\d+[.)/]`: some non-empty digit run is followed by `.`, `)` or `/` |
| QuizParser.PatternsDisjoint | quiz_manager.py:130-131 | no text matches both the question pattern and the option-label pattern |
| QuizParser.StripOptionLabel | quiz_manager.py:142 | a labelled text loses exactly its two-character label and the whitespace after it, and the rest does not start with whitespace; unlabelled text is unchanged |
| QuizParser.Prompt | quiz_manager.py:140 | the stored prompt ends with the stripped text and matches the question pattern exactly when the text does, so the prompt shows which question-start rule fired |
| QuizParser.LabelIsNoQuestion | quiz_manager.py:140 | the synthesised prefix "Câu hỏi: " followed by any text never matches the question pattern |
| QuizParser.ClassifyDecisionTable | quiz_manager.py:133-140 | for a paragraph that starts a question, its text is non-empty, the prompt ends with that text and matches the question pattern iff the text does; when it does not, the paragraph was emphasised, carries no option label, and the prompt is "Câu hỏi: " followed by the text |
| QuizParser.OptionLabelNeverStartsQuestion | quiz_manager.py:131-142 | an option-labelled paragraph is always an option line, whatever its emphasis, and its text is the label-stripped text |
| QuizParser.Close | quiz_manager.py:137-139 | a closed question is emitted iff it has two or more options, with its prompt and options; if its recorded mark is an option, the record is well formed |
| QuizParser.ParseDocx | quiz_manager.py:127-148 | the loop computes `Parse` of the paragraphs, and every record it returns has two or more options and a correct option among them |
| QuizParser.ParseWellFormed | quiz_manager.py:137-147 | every record of `Parse` has at least two options and its correct option is one of them |
| QuizParser.ParseCountBound | quiz_manager.py:136-147 | there are never more records than question-start paragraphs |
| QuizParser.ParseIgnoresPrelude | quiz_manager.py:141 | paragraphs before the first question start do not change the result |
| QuizParser.ParseSkipsBlank | quiz_manager.py:133-134 | removing a blank paragraph anywhere does not change the result |
| QuizParser.ParseSplitsAtQuestion | quiz_manager.py:136-140 | cutting the document before a question start gives the records of the first part followed by those of the second (document order) |
| QuizParser.LastMarkedIsLast | quiz_manager.py:144 | the result is the text of a marked option line with no marked line after it, and is empty iff no line is marked |
| QuizParser.ParseSingleBlock | quiz_manager.py:136-147 | a question start and its option paragraphs give one record iff there are two or more options: its prompt, the label-stripped options in order, and the last marked option if non-empty, else the first option |
| QuizParser.ExampleBoldAnswer | quiz_manager.py:127-148 | "1. What is 2+2?", "A. 3", bold "B. 4", "C. 5" parse to one record with options "3", "4", "5" and answer "4" |
| QuizParser.ExampleEmptyFirstOption | quiz_manager.py:138-146 | "1. Q", "A.", "B. x" parse to one record with options "" and "x" whose correct option is "" |
| QuizSession.IdentityIsPermutation | quiz_manager.py:179 | the presentation order holds each index of `0..n-1` exactly once and nothing else |
| QuizSession.CorrectAtMostAnswered | quiz_manager.py:207 | the number of correct recorded answers never exceeds the number of answers |
| QuizSession.RecordFirstAnswer | quiz_manager.py:223-224 | recording a first answer for a question adds one correct answer exactly when it equals the correct option |
| QuizSession.Session.constructor | quiz_manager.py:151-153 | a new session has no data, position 0, no answers and score 0, and is valid |
| QuizSession.Session.Load | quiz_manager.py:176-181 | loading a topic sets the records and the identity order, clears the answers, and resets score and position to 0 |
| QuizSession.Session.Jump | quiz_manager.py:203-205 | choosing `n` in `1..total` sets the position to `n - 1` and keeps the invariant |
| QuizSession.Session.Previous | quiz_manager.py:229 | the position decreases by one only when it is above 0, and stays in range |
| QuizSession.Session.Next | quiz_manager.py:230 | the position increases by one only when it is below `total - 1`, and stays in range |
| QuizSession.Session.Current | quiz_manager.py:209-213 | the underlying index of the shown question equals the position, is in range, and selects that record |
| QuizSession.Session.ScoreLine | quiz_manager.py:207 | the score line shows the score and the number of answers, with `0 <= score <= answers` |
| QuizSession.Session.CommitAnswerAsWritten | quiz_manager.py:213-225 | as written: a question whose recorded answer is missing or empty takes the choice, and the score rises by one if it is correct |
| QuizSession.Session.CommitAnswer | quiz_manager.py:213-225 | only a question with no recorded answer takes the choice, the score rises by one exactly when it is correct, and the score stays equal to the count of correct answers |
| QuizSession.EmptyAnswerScoredTwice | quiz_manager.py:214-224 | committing the correct empty answer twice through the as-written form gives score 2 for one answer, of which one is correct |
| QuizSession.EmptyAnswerScoredOnce | quiz_manager.py:214-224 | the same two commits through the corrected form give score 1 for one answer |

## Left out

- Page setup, CSS, widgets, forms, toasts, balloons and `st.rerun` (lines 13-48, 156-243): presentation only. Each user action is one `Session` method. The guard at line 195 (a topic is chosen and has questions) is `Active()`, which the navigation and commit methods require.
- Google Sheets access, credentials and caching (lines 51-117): network I/O through libraries outside this file. `Session.Load` takes the loaded records as a parameter.
- Topic ids from `time.time()` and timestamps from `datetime.now()` (lines 93-94): clock reads.
- The admin password comparison and the `show_admin` toggle (lines 160-167): a single string equality and a UI flag.
- `Document(file)` decoding: the parser takes the decoded paragraphs. A run's `bold` and `underline` are true only when set explicitly, which is also what the source's truthiness tests see. A colour is an explicit RGB triple or none.
- Python `re`: the two patterns are written as string predicates.
  - `\d` is modelled as ASCII digits. Python also accepts other Unicode decimal digits.
  - Case-insensitive matching of "Câu"/"Bài" folds ASCII and Latin-1 letters only. The extra equivalences of Python's matcher (dotless ı and dotted İ with `i`) are not modelled.
  - Decomposed (combining-accent) spellings of "â"/"à" are not matched by the model. Python's matcher, working on code points, does not match them either.
- A randomised order and a change of presentation mode: the source has neither. `quiz_indices` is always `range(len(quiz_data))`.
- `score` before the first load: the source creates it only on load (line 180). The constructor sets it to 0.
- `Session.Jump`: requires `1 <= selN <= total`, which the select box guarantees by offering only that range.

## Findings

| source | as written | input that shows it | evidently intended | confidence | as-written member | corrected member |
|---|---|---|---|---|---|---|
| quiz_manager.py:214-224 | the commit form is offered whenever the recorded answer is falsy (`if prev:`), so an empty-string answer counts as no answer and can be committed again, adding to `score` again | paragraphs "1. Q", "A.", "B. x" parse to options "" and "x" with correct option "" (`ExampleEmptyFirstOption`); committing "" twice gives score 2 with one answer | offer the form only when no answer is recorded (`idx in user_answers`), so an answer is final and `score` equals the number of correct answers | medium, not executed | QuizSession.Session.CommitAnswerAsWritten | QuizSession.Session.CommitAnswer |
