/**
 * The Word-document question parser (`is_correct_answer` and `parse_docx`
 * in quiz_manager.py). Each non-blank paragraph either starts a question
 * or becomes an option of the open question; the correct option is picked
 * from styling cues, and a question is emitted only with two or more options.
 *
 * `Feed`/`Parse` are the specification: a left fold of `Step` over the
 * paragraphs, closing the last open question at the end. `ParseDocx` is
 * the loop of the source, proved equal to `Parse`; the lemmas state what
 * the source promises about `Parse`.
 */
module QuizParser {
  import opened Wrappers
  import opened Text
  import opened Docx

  /** A finished record: its `question` text, its `options` and its `correct_option`. */
  datatype Question = Question(question: string, options: seq<string>, correctOption: string)

  /** The open question `current_q`; `correctOption` is `None` until an option is marked. */
  datatype Draft = Draft(question: string, options: seq<string>, correctOption: Option<string>)

  /** The state of the paragraph loop: records emitted so far and the open question. */
  datatype ParseState = ParseState(questions: seq<Question>, current: Option<Draft>)

  const Init := ParseState([], None)

  /** The two colours that mark an option as correct. */
  const Red := Rgb(255, 0, 0)
  const Blue := Rgb(0, 0, 255)

  /** The prefix of a prompt synthesised for an emphasised paragraph ("Question: "). */
  const QuestionLabel: string := "Câu hỏi: "

  /** What every emitted record satisfies. */
  predicate WellFormed(q: Question) {
    |q.options| >= 2 && q.correctOption in q.options
  }

  // ---------------------------------------------------------------------
  // Styling cues (`is_correct_answer` and the `is_bold` test)
  // ---------------------------------------------------------------------

  predicate StyleIsStrong(style: Option<string>) {
    style.Some? && Contains(style.value, "Strong")
  }

  predicate RunMarksAnswer(run: Run) {
    run.bold || run.underline || (run.color.Some? && run.color.value in [Red, Blue])
  }

  /** The loop over the runs, returning at the first run that marks the answer. */
  function AnyRunMarksAnswer(runs: seq<Run>): (r: bool)
    ensures r <==> exists i :: 0 <= i < |runs| && RunMarksAnswer(runs[i])
  {
    if runs == [] then false
    else if RunMarksAnswer(runs[0]) then true
    else AnyRunMarksAnswer(runs[1..])
  }

  /**
   * An option is marked correct by a "Strong" style, a bold or underlined
   * run, a run coloured exactly red or blue, or stripped text starting with `*`.
   */
  function IsCorrectAnswer(p: Paragraph): (r: bool)
    ensures r <==> StyleIsStrong(p.style)
                   || (exists i :: 0 <= i < |p.runs| && RunMarksAnswer(p.runs[i]))
                   || StartsWith(Strip(p.text), "*")
  {
    if StyleIsStrong(p.style) then true
    else if AnyRunMarksAnswer(p.runs) then true
    else StartsWith(Strip(p.text), "*")
  }

  predicate AnyBold(runs: seq<Run>) {
    exists i :: 0 <= i < |runs| && runs[i].bold
  }

  /** Emphasis as the question-start rule sees it: a bold run or a "Strong" style. */
  predicate IsBold(p: Paragraph) {
    AnyBold(p.runs) || StyleIsStrong(p.style)
  }

  // ---------------------------------------------------------------------
  // The two patterns, anchored at the start of the stripped text
  // ---------------------------------------------------------------------

  /** `\d+[.)/]`: the maximal run of digits is non-empty and followed by a separator. */
  predicate NumberedLabel(t: string) {
    var k := LeadingDigits(t);
    1 <= k < |t| && t[k] in ".)/"
  }

  /** `word\s+\d+`, the word compared ignoring case. */
  predicate WordLabel(t: string, word: string) {
    |word| <= |t| && EqualsIgnoreCase(t[..|word|], word) &&
    var rest := t[|word|..];
    var k := LeadingSpaces(rest);
    1 <= k < |rest| && IsDigit(rest[k])
  }

  /** `q_pat`: a numbered label, or "Câu"/"Bài" ("question"/"exercise") and a number. */
  predicate MatchesQuestionPattern(t: string) {
    NumberedLabel(t) || WordLabel(t, "Câu") || WordLabel(t, "Bài")
  }

  /** `opt_pat`: one letter A-D or a-d, then `.`, `)` or `-`. */
  predicate MatchesOptionLabel(t: string) {
    2 <= |t| && ('A' <= t[0] <= 'D' || 'a' <= t[0] <= 'd') && t[1] in ".)-"
  }

  /**
   * The greedy digit scan of `NumberedLabel` agrees with the backtracking
   * reading of `\d+[.)/]`: some non-empty run of digits is followed by a separator.
   */
  lemma NumberedLabelMatchesRegex(t: string)
    ensures NumberedLabel(t) <==>
            exists k :: 1 <= k < |t| && (forall i :: 0 <= i < k ==> IsDigit(t[i])) && t[k] in ".)/"
  {
    if k :| 1 <= k < |t| && (forall i :: 0 <= i < k ==> IsDigit(t[i])) && t[k] in ".)/" {
      var m := LeadingDigits(t);
      assert !IsDigit(t[k]);
      assert m == k;
    }
  }

  /** The two patterns never match the same text: they begin with different characters. */
  lemma PatternsDisjoint(t: string)
    ensures !(MatchesQuestionPattern(t) && MatchesOptionLabel(t))
  {
    if MatchesOptionLabel(t) && |t| >= 3 {
      assert !IsDigit(t[0]);
      assert Lower(t[1]) != 'â' && Lower(t[1]) != 'à';
      assert !EqualsIgnoreCase(t[..3], "Câu") by { assert Lower(t[..3][1]) != Lower("Câu"[1]); }
      assert !EqualsIgnoreCase(t[..3], "Bài") by { assert Lower(t[..3][1]) != Lower("Bài"[1]); }
    }
  }

  /**
   * `re.sub` of the option label: a labelled text loses the label and the
   * whitespace after it, and what is left does not start with whitespace;
   * any other text is kept as it is.
   */
  function StripOptionLabel(t: string): (r: string)
    ensures !MatchesOptionLabel(t) ==> r == t
    ensures MatchesOptionLabel(t) ==>
              |r| <= |t| - 2 && r == t[|t| - |r|..]
              && (forall i :: 2 <= i < |t| - |r| ==> IsSpace(t[i]))
              && (r != [] ==> !IsSpace(r[0]))
  {
    if MatchesOptionLabel(t) then
      var rest := t[2..];
      rest[LeadingSpaces(rest)..]
    else
      t
  }

  /**
   * The prompt stored for a question start with stripped text `text`. It
   * ends with that text, and it matches `q_pat` exactly when the text does:
   * the "Câu hỏi: " prefix never reads as a question label, so a stored
   * prompt shows which of the two question-start rules fired.
   */
  function Prompt(text: string): (r: string)
    ensures MatchesQuestionPattern(r) <==> MatchesQuestionPattern(text)
    ensures |text| <= |r| && r[|r| - |text|..] == text
  {
    if MatchesQuestionPattern(text) then text
    else
      LabelIsNoQuestion(text);
      QuestionLabel + text
  }

  /** "Câu hỏi: " followed by anything matches neither alternative of `q_pat`. */
  lemma LabelIsNoQuestion(text: string)
    ensures !MatchesQuestionPattern(QuestionLabel + text)
  {
    var r := QuestionLabel + text;
    assert !IsDigit(r[0]);
    var rest := r[3..];
    assert IsSpace(rest[0]) && !IsSpace(rest[1]) && !IsDigit(rest[1]);
    assert LeadingSpaces(rest) == 1 by { assert LeadingSpaces(rest[1..]) == 0; }
    assert !EqualsIgnoreCase(r[..3], "Bài") by { assert Lower(r[..3][0]) != Lower("Bài"[0]); }
  }

  // ---------------------------------------------------------------------
  // Classification of one paragraph
  // ---------------------------------------------------------------------

  /** What one paragraph is to the parser. */
  datatype Kind =
    | Blank
    | QuestionStart(prompt: string)
    | OptionLine(text: string, marked: bool)

  predicate IsBlank(p: Paragraph) {
    Strip(p.text) == []
  }

  /**
   * The decision table of the loop body: a blank paragraph is skipped; a
   * paragraph matching `q_pat`, or emphasised and not option-labelled,
   * starts a question; anything else is an option line.
   */
  function Classify(p: Paragraph): (k: Kind)
    ensures k.Blank? <==> IsBlank(p)
    ensures k.QuestionStart? ==> k.prompt == Strip(p.text) || k.prompt == QuestionLabel + Strip(p.text)
    ensures k.OptionLine? ==> !MatchesQuestionPattern(Strip(p.text)) && k.marked == IsCorrectAnswer(p)
  {
    var text := Strip(p.text);
    if text == [] then Blank
    else if MatchesQuestionPattern(text) || (IsBold(p) && !MatchesOptionLabel(text)) then QuestionStart(Prompt(text))
    else OptionLine(StripOptionLabel(text), IsCorrectAnswer(p))
  }

  predicate IsQuestionStart(p: Paragraph) {
    Classify(p).QuestionStart?
  }

  /** The classification of every paragraph, in document order. */
  function Classified(ps: seq<Paragraph>): seq<Kind> {
    seq(|ps|, i requires 0 <= i < |ps| => Classify(ps[i]))
  }

  /**
   * Which rule started a question can be read off its prompt: the prompt
   * matches `q_pat` exactly when the paragraph's stripped text does;
   * otherwise the paragraph was emphasised, carries no option label, and
   * its prompt is "Câu hỏi: " followed by that text.
   */
  lemma ClassifyDecisionTable(p: Paragraph)
    requires Classify(p).QuestionStart?
    ensures var t := Strip(p.text);
            var q := Classify(p).prompt;
            && t != []
            && (MatchesQuestionPattern(q) <==> MatchesQuestionPattern(t))
            && |t| <= |q| && q[|q| - |t|..] == t
            && (!MatchesQuestionPattern(q) ==> IsBold(p) && !MatchesOptionLabel(t) && q == QuestionLabel + t)
  {
  }

  /** An option-labelled paragraph never starts a question, however it is styled. */
  lemma OptionLabelNeverStartsQuestion(p: Paragraph)
    requires MatchesOptionLabel(Strip(p.text))
    ensures Classify(p).OptionLine?
    ensures Classify(p).text == StripOptionLabel(Strip(p.text))
  {
    PatternsDisjoint(Strip(p.text));
  }

  // ---------------------------------------------------------------------
  // The fold over classified paragraphs
  // ---------------------------------------------------------------------

  /** The open question's `correct_option`, if set, is one of its options. */
  predicate DraftOk(d: Draft) {
    d.correctOption.Some? ==> d.correctOption.value in d.options
  }

  /**
   * Closing the open question: emitted only with two or more options, the
   * correct option defaulting to the first when unset or empty.
   */
  function Close(c: Option<Draft>): (qs: seq<Question>)
    ensures qs == [] <==> c.None? || |c.value.options| < 2
    ensures qs != [] ==> |qs| == 1 && qs[0].question == c.value.question
                         && qs[0].options == c.value.options
    ensures c.Some? && DraftOk(c.value) ==> forall q :: q in qs ==> WellFormed(q)
  {
    if c.Some? && |c.value.options| >= 2 then
      var d := c.value;
      var correct := if d.correctOption.None? || d.correctOption.value == "" then d.options[0]
                     else d.correctOption.value;
      [Question(d.question, d.options, correct)]
    else
      []
  }

  /** One iteration of the paragraph loop, on the paragraph's classification. */
  function Step(st: ParseState, k: Kind): ParseState {
    match k
    case Blank => st
    case QuestionStart(prompt) =>
      ParseState(st.questions + Close(st.current), Some(Draft(prompt, [], None)))
    case OptionLine(text, marked) =>
      if st.current.None? then st
      else
        var d := st.current.value;
        ParseState(st.questions,
                   Some(Draft(d.question, d.options + [text], if marked then Some(text) else d.correctOption)))
  }

  function Feed(st: ParseState, ks: seq<Kind>): ParseState
    decreases |ks|
  {
    if ks == [] then st else Feed(Step(st, ks[0]), ks[1..])
  }

  /** Emitted records followed by the record the open question closes into, if any. */
  function Finish(st: ParseState): seq<Question> {
    st.questions + Close(st.current)
  }

  /** The specification of `parse_docx`. */
  function Parse(ps: seq<Paragraph>): seq<Question> {
    Finish(Feed(Init, Classified(ps)))
  }

  // ---------------------------------------------------------------------
  // parse_docx
  // ---------------------------------------------------------------------

  method ParseDocx(paragraphs: seq<Paragraph>) returns (questions: seq<Question>)
    ensures questions == Parse(paragraphs)
    ensures forall q :: q in questions ==> WellFormed(q)
  {
    ghost var ks := Classified(paragraphs);
    questions := [];
    var current: Option<Draft> := None;
    for i := 0 to |paragraphs|
      invariant Feed(ParseState(questions, current), ks[i..]) == Feed(Init, ks)
    {
      var para := paragraphs[i];
      assert ks[i..][1..] == ks[i + 1..];
      ghost var before := ParseState(questions, current);
      var text := Strip(para.text);
      if text == [] {
        continue;
      }
      var isBold := AnyBold(para.runs) || StyleIsStrong(para.style);
      if MatchesQuestionPattern(text) || (isBold && !MatchesOptionLabel(text)) {
        questions := questions + Close(current);
        current := Some(Draft(if MatchesQuestionPattern(text) then text else QuestionLabel + text, [], None));
      } else if current.Some? {
        var cleanOpt := StripOptionLabel(text);
        current := Some(current.value.(options := current.value.options + [cleanOpt]));
        if IsCorrectAnswer(para) {
          current := Some(current.value.(correctOption := Some(cleanOpt)));
        }
      }
      assert ParseState(questions, current) == Step(before, ks[i]);
    }
    questions := questions + Close(current);
    ParseWellFormed(paragraphs);
  }

  // ---------------------------------------------------------------------
  // Properties of Parse
  // ---------------------------------------------------------------------

  ghost predicate StateOk(st: ParseState) {
    (forall q :: q in st.questions ==> WellFormed(q))
    && (st.current.Some? ==> DraftOk(st.current.value))
  }

  lemma {:induction false} FeedKeepsStateOk(st: ParseState, ks: seq<Kind>)
    requires StateOk(st)
    ensures StateOk(Feed(st, ks))
    decreases |ks|
  {
    if ks != [] {
      FeedKeepsStateOk(Step(st, ks[0]), ks[1..]);
    }
  }

  /** Every record has at least two options, and its correct option is one of them. */
  lemma ParseWellFormed(ps: seq<Paragraph>)
    ensures forall q :: q in Parse(ps) ==> WellFormed(q)
  {
    FeedKeepsStateOk(Init, Classified(ps));
  }

  function CountStarts(ks: seq<Kind>): nat {
    if ks == [] then 0 else (if ks[0].QuestionStart? then 1 else 0) + CountStarts(ks[1..])
  }

  function Pending(st: ParseState): nat {
    |st.questions| + if st.current.Some? then 1 else 0
  }

  lemma {:induction false} FeedCount(st: ParseState, ks: seq<Kind>)
    ensures Pending(Feed(st, ks)) <= Pending(st) + CountStarts(ks)
    decreases |ks|
  {
    if ks != [] {
      FeedCount(Step(st, ks[0]), ks[1..]);
    }
  }

  /** There are never more records than question-start paragraphs. */
  lemma ParseCountBound(ps: seq<Paragraph>)
    ensures |Parse(ps)| <= CountStarts(Classified(ps))
  {
    FeedCount(Init, Classified(ps));
  }

  lemma ClassifiedAppend(xs: seq<Paragraph>, ys: seq<Paragraph>)
    ensures Classified(xs + ys) == Classified(xs) + Classified(ys)
  {
  }

  lemma {:induction false} FeedAppend(st: ParseState, xs: seq<Kind>, ys: seq<Kind>)
    ensures Feed(st, xs + ys) == Feed(Feed(st, xs), ys)
    decreases |xs|
  {
    if xs == [] {
      assert xs + ys == ys;
    } else {
      assert (xs + ys)[1..] == xs[1..] + ys;
      FeedAppend(Step(st, xs[0]), xs[1..], ys);
    }
  }

  lemma {:induction false} FeedIdleWithoutQuestion(ks: seq<Kind>)
    requires forall i :: 0 <= i < |ks| ==> !ks[i].QuestionStart?
    ensures Feed(Init, ks) == Init
    decreases |ks|
  {
    if ks != [] {
      FeedIdleWithoutQuestion(ks[1..]);
    }
  }

  /** Paragraphs before the first question start contribute nothing. */
  lemma ParseIgnoresPrelude(pre: seq<Paragraph>, ps: seq<Paragraph>)
    requires forall i :: 0 <= i < |pre| ==> !IsQuestionStart(pre[i])
    ensures Parse(pre + ps) == Parse(ps)
  {
    ClassifiedAppend(pre, ps);
    FeedAppend(Init, Classified(pre), Classified(ps));
    FeedIdleWithoutQuestion(Classified(pre));
  }

  /** A blank paragraph can be removed anywhere without changing the result. */
  lemma ParseSkipsBlank(xs: seq<Paragraph>, b: Paragraph, ys: seq<Paragraph>)
    requires IsBlank(b)
    ensures Parse(xs + [b] + ys) == Parse(xs + ys)
  {
    var kx, ky := Classified(xs), Classified(ys);
    ClassifiedAppend(xs + [b], ys);
    ClassifiedAppend(xs, [b]);
    ClassifiedAppend(xs, ys);
    assert Classified([b]) == [Blank];
    FeedAppend(Init, kx + [Blank], ky);
    FeedAppend(Init, kx, [Blank]);
    FeedAppend(Init, kx, ky);
  }

  lemma StepKeepsEmitted(qs: seq<Question>, c: Option<Draft>, k: Kind)
    ensures Step(ParseState(qs, c), k)
            == ParseState(qs + Step(ParseState([], c), k).questions, Step(ParseState([], c), k).current)
  {
    if !k.QuestionStart? {
      assert qs + [] == qs;
    }
  }

  /** Running from a state with records `qs` emits `qs` first, then what a run without them emits. */
  lemma {:induction false} FeedKeepsEmitted(qs: seq<Question>, c: Option<Draft>, ks: seq<Kind>)
    ensures Feed(ParseState(qs, c), ks)
            == ParseState(qs + Feed(ParseState([], c), ks).questions, Feed(ParseState([], c), ks).current)
    decreases |ks|
  {
    if ks == [] {
      assert qs + [] == qs;
    } else {
      var s := Step(ParseState([], c), ks[0]);
      StepKeepsEmitted(qs, c, ks[0]);
      var rest := Feed(ParseState([], s.current), ks[1..]);
      FeedKeepsEmitted(qs + s.questions, s.current, ks[1..]);
      FeedKeepsEmitted(s.questions, s.current, ks[1..]);
      assert qs + s.questions + rest.questions == qs + (s.questions + rest.questions);
    }
  }

  /**
   * On classified paragraphs: when the second sequence begins with a
   * question start, folding the concatenation and finishing gives the
   * finished fold of the first followed by that of the second.
   */
  lemma FeedSplitsAtStart(kx: seq<Kind>, ky: seq<Kind>)
    requires ky != [] && ky[0].QuestionStart?
    ensures Finish(Feed(Init, kx + ky)) == Finish(Feed(Init, kx)) + Finish(Feed(Init, ky))
  {
    FeedAppend(Init, kx, ky);
    var st := Feed(Init, kx);
    var d := Some(Draft(ky[0].prompt, [], None));
    assert Step(Init, ky[0]) == ParseState([], d);
    assert Step(st, ky[0]) == ParseState(Finish(st), d);
    var rest := Feed(ParseState([], d), ky[1..]);
    FeedKeepsEmitted(Finish(st), d, ky[1..]);
    assert Finish(st) + Finish(rest) == Finish(ParseState(Finish(st) + rest.questions, rest.current));
  }

  /**
   * Document order: cutting the document just before a question start
   * splits the records into those of the two parts, in order.
   */
  lemma ParseSplitsAtQuestion(xs: seq<Paragraph>, ys: seq<Paragraph>)
    requires ys != [] && IsQuestionStart(ys[0])
    ensures Parse(xs + ys) == Parse(xs) + Parse(ys)
  {
    ClassifiedAppend(xs, ys);
    FeedSplitsAtStart(Classified(xs), Classified(ys));
  }

  /** The option strings of a run of classified paragraphs, blanks skipped. */
  function OptionTexts(ks: seq<Kind>): seq<string> {
    if ks == [] then []
    else (if ks[0].OptionLine? then [ks[0].text] else []) + OptionTexts(ks[1..])
  }

  /** The text of the last marked option line: later marks overwrite earlier ones. */
  function LastMarked(ks: seq<Kind>): Option<string> {
    if ks == [] then None
    else
      var later := LastMarked(ks[1..]);
      if later.Some? then later
      else if ks[0].OptionLine? && ks[0].marked then Some(ks[0].text)
      else None
  }

  predicate MarkedLine(k: Kind) {
    k.OptionLine? && k.marked
  }

  /**
   * `LastMarked` is empty exactly when no option line is marked, and
   * otherwise is the text of a marked line with no marked line after it.
   */
  lemma {:induction false} LastMarkedIsLast(ks: seq<Kind>)
    ensures LastMarked(ks).None? <==> forall j :: 0 <= j < |ks| ==> !MarkedLine(ks[j])
    ensures LastMarked(ks).Some? ==>
              exists j :: 0 <= j < |ks| && MarkedLine(ks[j]) && LastMarked(ks).value == ks[j].text
                          && forall k :: j < k < |ks| ==> !MarkedLine(ks[k])
    decreases |ks|
  {
    if ks != [] {
      var rest := ks[1..];
      LastMarkedIsLast(rest);
      assert forall j :: 1 <= j < |ks| ==> ks[j] == rest[j - 1];
      if LastMarked(rest).Some? {
        var j :| 0 <= j < |rest| && MarkedLine(rest[j]) && LastMarked(rest).value == rest[j].text
                 && forall k :: j < k < |rest| ==> !MarkedLine(rest[k]);
        assert MarkedLine(ks[j + 1]);
      }
    }
  }

  lemma {:induction false} FeedOptions(qs: seq<Question>, d: Draft, ks: seq<Kind>)
    requires forall i :: 0 <= i < |ks| ==> !ks[i].QuestionStart?
    ensures Feed(ParseState(qs, Some(d)), ks)
            == ParseState(qs, Some(Draft(d.question, d.options + OptionTexts(ks),
                                         if LastMarked(ks).Some? then LastMarked(ks) else d.correctOption)))
    decreases |ks|
  {
    if ks == [] {
      assert d.options + [] == d.options;
    } else {
      var rest := ks[1..];
      match ks[0]
      case Blank =>
        assert Feed(ParseState(qs, Some(d)), ks) == Feed(ParseState(qs, Some(d)), rest);
        FeedOptions(qs, d, rest);
        assert OptionTexts(ks) == OptionTexts(rest);
        assert LastMarked(ks) == LastMarked(rest);
      case OptionLine(text, marked) =>
        var d' := Draft(d.question, d.options + [text], if marked then Some(text) else d.correctOption);
        assert Feed(ParseState(qs, Some(d)), ks) == Feed(ParseState(qs, Some(d')), rest);
        FeedOptions(qs, d', rest);
        assert LastMarked(ks) == if LastMarked(rest).Some? then LastMarked(rest)
                                 else if marked then Some(text) else None;
        assert d'.options + OptionTexts(rest) == d.options + OptionTexts(ks) by {
          assert OptionTexts(ks) == [text] + OptionTexts(rest);
        }
    }
  }

  /**
   * On classified paragraphs: a `QuestionStart` kind followed by kinds that
   * start no question finishes into at most one record, built from the
   * kinds' `OptionTexts` and `LastMarked`, with the first option as default.
   */
  lemma FeedSingleBlock(k: Kind, ko: seq<Kind>)
    requires k.QuestionStart?
    requires forall i :: 0 <= i < |ko| ==> !ko[i].QuestionStart?
    ensures var opts := OptionTexts(ko);
            var mark := LastMarked(ko);
            Finish(Feed(Init, [k] + ko))
            == if |opts| < 2 then []
               else [Question(k.prompt, opts, if mark.Some? && mark.value != "" then mark.value else opts[0])]
  {
    var d := Draft(k.prompt, [], None);
    assert ([k] + ko)[1..] == ko;
    assert Step(Init, k) == ParseState([], Some(d));
    FeedOptions([], d, ko);
    assert [] + OptionTexts(ko) == OptionTexts(ko);
  }

  /**
   * One question block: a question start followed by option paragraphs
   * gives one record when it has two or more options, and none otherwise.
   * The correct option is the text of the last marked option, or the first
   * option when none is marked or the last marked one is empty.
   */
  lemma ParseSingleBlock(s: Paragraph, os: seq<Paragraph>)
    requires IsQuestionStart(s)
    requires forall i :: 0 <= i < |os| ==> !IsQuestionStart(os[i])
    ensures var opts := OptionTexts(Classified(os));
            var mark := LastMarked(Classified(os));
            Parse([s] + os)
            == if |opts| < 2 then []
               else [Question(Classify(s).prompt, opts,
                              if mark.Some? && mark.value != "" then mark.value else opts[0])]
  {
    ClassifiedAppend([s], os);
    assert Classified([s]) == [Classify(s)];
    FeedSingleBlock(Classify(s), Classified(os));
  }

  // ---------------------------------------------------------------------
  // Worked examples
  // ---------------------------------------------------------------------

  /** A paragraph with neither emphasis nor a style. */
  function Plain(text: string): Paragraph {
    Paragraph(text, [], None)
  }

  /** Text without surrounding whitespace is its own stripped form. */
  lemma StripUnpadded(t: string)
    requires t != [] && !IsSpace(t[0]) && !IsSpace(t[|t| - 1])
    ensures Strip(t) == t
  {
    assert LeadingSpaces(t) == 0;
    assert TrailingSpaces(t) == 0;
  }

  /** An unpadded plain paragraph matching `q_pat` starts a question with its own text as prompt. */
  lemma ClassifyPlainQuestion(t: string)
    requires t != [] && !IsSpace(t[0]) && !IsSpace(t[|t| - 1])
    requires MatchesQuestionPattern(t)
    ensures Classify(Plain(t)) == QuestionStart(t)
  {
    StripUnpadded(t);
  }

  /** An unpadded option-labelled paragraph is an option line, marked exactly when its runs mark it. */
  lemma ClassifyLabelledOption(t: string, runs: seq<Run>)
    requires t != [] && !IsSpace(t[0]) && !IsSpace(t[|t| - 1])
    requires MatchesOptionLabel(t)
    ensures Classify(Paragraph(t, runs, None)) == OptionLine(StripOptionLabel(t), AnyRunMarksAnswer(runs))
  {
    StripUnpadded(t);
    OptionLabelNeverStartsQuestion(Paragraph(t, runs, None));
  }

  lemma LabelledOptionText(t: string, rest: string)
    requires MatchesOptionLabel(t) && t[2..] == " " + rest
    requires rest != [] && !IsSpace(rest[0])
    ensures StripOptionLabel(t) == rest
  {
    assert LeadingSpaces(t[2..]) == 1 by { assert t[2..][1..] == rest; }
  }

  lemma NumberedPrompt(t: string)
    requires t != [] && !IsSpace(t[|t| - 1])
    requires |t| >= 2 && IsDigit(t[0]) && t[1] == '.'
    ensures Classified([Plain(t)]) == [QuestionStart(t)]
  {
    assert LeadingDigits(t) == 1 by { assert LeadingDigits(t[1..]) == 0; }
    ClassifyPlainQuestion(t);
  }

  lemma SpacedOption(t: string, runs: seq<Run>)
    requires |t| == 4 && 'A' <= t[0] <= 'D' && t[1] == '.' && t[2] == ' ' && !IsSpace(t[3])
    ensures Classified([Paragraph(t, runs, None)]) == [OptionLine([t[3]], AnyRunMarksAnswer(runs))]
  {
    LabelledOptionText(t, [t[3]]);
    ClassifyLabelledOption(t, runs);
  }

  lemma ClassifiedConcat(p: Paragraph, ps: seq<Paragraph>)
    ensures Classified([p] + ps) == Classified([p]) + Classified(ps)
  {
    ClassifiedAppend([p], ps);
  }

  lemma BoldAnswerOptionKinds(a: string, b: string, c: string)
    requires a == "A. 3" && b == "B. 4" && c == "C. 5"
    ensures Classified([Plain(a), Paragraph(b, [Run(true, false, None)], None), Plain(c)])
            == [OptionLine("3", false), OptionLine("4", true), OptionLine("5", false)]
  {
    var p1 := Paragraph(b, [Run(true, false, None)], None);
    SpacedOption(a, []);
    assert AnyRunMarksAnswer([Run(true, false, None)]);
    SpacedOption(b, [Run(true, false, None)]);
    SpacedOption(c, []);
    ClassifiedConcat(p1, [Plain(c)]);
    ClassifiedConcat(Plain(a), [p1, Plain(c)]);
    assert [p1] + [Plain(c)] == [p1, Plain(c)];
    assert [Plain(a)] + [p1, Plain(c)] == [Plain(a), p1, Plain(c)];
  }

  lemma BoldAnswerKinds(q: string, a: string, b: string, c: string)
    requires q == "1. What is 2+2?" && a == "A. 3" && b == "B. 4" && c == "C. 5"
    ensures Classified([Plain(q), Plain(a), Paragraph(b, [Run(true, false, None)], None), Plain(c)])
            == [QuestionStart(q), OptionLine("3", false), OptionLine("4", true), OptionLine("5", false)]
  {
    var os := [Plain(a), Paragraph(b, [Run(true, false, None)], None), Plain(c)];
    NumberedPrompt(q);
    BoldAnswerOptionKinds(a, b, c);
    ClassifiedConcat(Plain(q), os);
    assert [Plain(q)] + os == [Plain(q), Plain(a), Paragraph(b, [Run(true, false, None)], None), Plain(c)];
  }

  /**
   * "1. What is 2+2?" with options "A. 3", a bold "B. 4" and "C. 5" gives
   * one record whose options lose their labels and whose answer is "4".
   */
  lemma ExampleBoldAnswer(q: string, a: string, b: string, c: string)
    requires q == "1. What is 2+2?" && a == "A. 3" && b == "B. 4" && c == "C. 5"
    ensures Parse([Plain(q), Plain(a), Paragraph(b, [Run(true, false, None)], None), Plain(c)])
            == [Question(q, ["3", "4", "5"], "4")]
  {
    BoldAnswerKinds(q, a, b, c);
    var ko := [OptionLine("3", false), OptionLine("4", true), OptionLine("5", false)];
    assert OptionTexts(ko) == ["3", "4", "5"] by {
      assert OptionTexts(ko[2..]) == ["5"];
      assert OptionTexts(ko[1..]) == ["4", "5"];
    }
    assert LastMarked(ko) == Some("4");
    FeedSingleBlock(QuestionStart(q), ko);
  }

  lemma BareLabel(a: string)
    requires a == "A."
    ensures Classified([Plain(a)]) == [OptionLine("", false)]
  {
    assert StripOptionLabel(a) == "";
    ClassifyLabelledOption(a, []);
  }

  lemma EmptyFirstOptionKinds(q: string, a: string, b: string)
    requires q == "1. Q" && a == "A." && b == "B. x"
    ensures Classified([Plain(q), Plain(a), Plain(b)])
            == [QuestionStart(q), OptionLine("", false), OptionLine("x", false)]
  {
    NumberedPrompt(q);
    BareLabel(a);
    SpacedOption(b, []);
    ClassifiedConcat(Plain(a), [Plain(b)]);
    ClassifiedConcat(Plain(q), [Plain(a), Plain(b)]);
    assert [Plain(a)] + [Plain(b)] == [Plain(a), Plain(b)];
    assert [Plain(q)] + [Plain(a), Plain(b)] == [Plain(q), Plain(a), Plain(b)];
  }

  /**
   * A bare label "A." as the first option is stored as the empty option;
   * with no option marked, that empty string becomes the correct option.
   */
  lemma ExampleEmptyFirstOption(q: string, a: string, b: string)
    requires q == "1. Q" && a == "A." && b == "B. x"
    ensures Parse([Plain(q), Plain(a), Plain(b)]) == [Question(q, ["", "x"], "")]
  {
    EmptyFirstOptionKinds(q, a, b);
    var ko := [OptionLine("", false), OptionLine("x", false)];
    assert OptionTexts(ko) == ["", "x"] by {
      assert OptionTexts(ko[1..]) == ["x"];
    }
    assert LastMarked(ko) == None;
    FeedSingleBlock(QuestionStart(q), ko);
  }
}
