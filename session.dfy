/**
 * The quiz session of the main screen of quiz_manager.py, kept by the
 * source in Streamlit's session state: the loaded records (`quiz_data`),
 * the presentation order (`quiz_indices`), the current position
 * (`q_index`), the recorded answers keyed by underlying index
 * (`user_answers`) and the `score`. Widgets, forms and reruns are the
 * presentation layer; each user action is one method here.
 */
module QuizSession {
  import opened QuizParser

  /** The presentation order `list(range(n))`. */
  function Identity(n: nat): seq<int> {
    seq(n, i => i)
  }

  /** The identity order is a permutation of `0..n-1`: every index once, nothing else. */
  lemma IdentityIsPermutation(n: nat)
    ensures |Identity(n)| == n
    ensures forall i :: 0 <= i < n ==> i in Identity(n)
    ensures forall k :: k in Identity(n) ==> 0 <= k < n
    ensures forall i, j :: 0 <= i < j < n ==> Identity(n)[i] != Identity(n)[j]
  {
    forall i | 0 <= i < n ensures i in Identity(n) {
      assert Identity(n)[i] == i;
    }
  }

  /** The answered indices whose recorded answer is that question's correct option. */
  function CorrectlyAnswered(answers: map<int, string>, data: seq<Question>): set<int> {
    set i | i in answers && 0 <= i < |data| && answers[i] == data[i].correctOption
  }

  /** The score shown beside the count of answers never exceeds it. */
  lemma CorrectAtMostAnswered(answers: map<int, string>, data: seq<Question>)
    ensures |CorrectlyAnswered(answers, data)| <= |answers|
  {
    var c := CorrectlyAnswered(answers, data);
    var keys := answers.Keys;
    assert c <= keys;
    assert keys == c + (keys - c);
    assert |keys| == |answers|;
  }

  /** Recording a first answer adds one correct answer exactly when it is the correct option. */
  lemma RecordFirstAnswer(answers: map<int, string>, data: seq<Question>, idx: int, choice: string)
    requires idx !in answers && 0 <= idx < |data|
    ensures |CorrectlyAnswered(answers[idx := choice], data)|
            == |CorrectlyAnswered(answers, data)| + if choice == data[idx].correctOption then 1 else 0
  {
    var before := CorrectlyAnswered(answers, data);
    var after := CorrectlyAnswered(answers[idx := choice], data);
    if choice == data[idx].correctOption {
      assert after == before + {idx};
    } else {
      assert after == before;
    }
  }

  class Session {
    var quizData: seq<Question>
    var quizIndices: seq<int>
    var qIndex: int
    var userAnswers: map<int, string>
    var score: int
    /** A topic was chosen (`current_topic_id` is set). */
    var topicLoaded: bool

    /**
     * The order is the identity, the position is inside the question list,
     * answers are keyed by question indices, and the score counts exactly
     * the recorded answers that are correct.
     */
    ghost predicate Valid()
      reads this
    {
      && quizIndices == Identity(|quizData|)
      && 0 <= qIndex && (qIndex < |quizData| || qIndex == 0)
      && (forall i :: i in userAnswers ==> 0 <= i < |quizData|)
      && score == |CorrectlyAnswered(userAnswers, quizData)|
    }

    /** The quiz screen is shown: a topic is chosen and it has questions. */
    predicate Active()
      reads this
    {
      topicLoaded && |quizData| > 0
    }

    /** The first run of the script: empty data, position 0, no answers. */
    constructor ()
      ensures Valid() && !topicLoaded
      ensures quizData == [] && qIndex == 0 && userAnswers == map[] && score == 0
    {
      quizData, quizIndices, qIndex := [], [], 0;
      userAnswers, score, topicLoaded := map[], 0, false;
    }

    /** Choosing a topic: its records replace the session, which starts over. */
    method Load(data: seq<Question>)
      modifies this
      ensures Valid() && topicLoaded
      ensures quizData == data && quizIndices == Identity(|data|)
      ensures userAnswers == map[] && score == 0 && qIndex == 0
    {
      topicLoaded := true;
      quizData := data;
      quizIndices := Identity(|quizData|);
      userAnswers, score, qIndex := map[], 0, 0;
    }

    /** The "jump to question" box, offering `1..total`. */
    method Jump(selN: int)
      requires Valid() && Active()
      requires 1 <= selN <= |quizData|
      modifies this`qIndex
      ensures Valid() && qIndex == selN - 1
    {
      if selN != qIndex + 1 {
        qIndex := selN - 1;
      }
    }

    /** "Previous": moves back unless at the first question. */
    method Previous()
      requires Valid() && Active()
      modifies this`qIndex
      ensures Valid() && 0 <= qIndex < |quizData|
      ensures qIndex == if old(qIndex) > 0 then old(qIndex) - 1 else old(qIndex)
    {
      if qIndex > 0 {
        qIndex := qIndex - 1;
      }
    }

    /** "Next": moves on unless at the last question. */
    method Next()
      requires Valid() && Active()
      modifies this`qIndex
      ensures Valid() && 0 <= qIndex < |quizData|
      ensures qIndex == if old(qIndex) < |quizData| - 1 then old(qIndex) + 1 else old(qIndex)
    {
      if qIndex < |quizData| - 1 {
        qIndex := qIndex + 1;
      }
    }

    /** The question on screen and its underlying index. */
    method Current() returns (idx: int, q: Question)
      requires Valid() && Active()
      ensures idx == qIndex && 0 <= idx < |quizData| && q == quizData[idx]
    {
      idx := quizIndices[qIndex];
      q := quizData[idx];
    }

    /** The score line: correct answers out of answers given. */
    method ScoreLine() returns (correct: int, answered: int)
      requires Valid()
      ensures correct == score && answered == |userAnswers|
      ensures 0 <= correct <= answered
    {
      CorrectAtMostAnswered(userAnswers, quizData);
      correct, answered := score, |userAnswers|;
    }

    /**
     * Committing an answer as the source does: the form is offered when
     * the recorded answer is falsy, so an empty answer counts as none.
     */
    method CommitAnswerAsWritten(choice: string)
      requires Active() && quizIndices == Identity(|quizData|) && 0 <= qIndex < |quizData|
      modifies this`userAnswers, this`score
      ensures if qIndex in old(userAnswers) && old(userAnswers)[qIndex] != "" then
                userAnswers == old(userAnswers) && score == old(score)
              else
                userAnswers == old(userAnswers)[qIndex := choice]
                && score == old(score) + if choice == quizData[qIndex].correctOption then 1 else 0
    {
      var idx := quizIndices[qIndex];
      var answered := idx in userAnswers && userAnswers[idx] != "";
      if !answered {
        userAnswers := userAnswers[idx := choice];
        if choice == quizData[idx].correctOption {
          score := score + 1;
        }
      }
    }

    /**
     * Committing an answer: only a question without a recorded answer
     * takes one, and the score rises by one exactly when it is correct.
     */
    method CommitAnswer(choice: string)
      requires Valid() && Active()
      modifies this`userAnswers, this`score
      ensures Valid()
      ensures qIndex in old(userAnswers) ==> userAnswers == old(userAnswers) && score == old(score)
      ensures qIndex !in old(userAnswers) ==>
                userAnswers == old(userAnswers)[qIndex := choice]
                && score == old(score) + if choice == quizData[qIndex].correctOption then 1 else 0
    {
      var idx := quizIndices[qIndex];
      if idx !in userAnswers {
        RecordFirstAnswer(userAnswers, quizData, idx, choice);
        userAnswers := userAnswers[idx := choice];
        if choice == quizData[idx].correctOption {
          score := score + 1;
        }
      }
    }
  }

  /**
   * A question whose correct option is the empty string, answered with it
   * twice through the form as written: the score reaches 2 with one answer,
   * of which one is correct.
   */
  method EmptyAnswerScoredTwice() returns (score: int, answered: int, correct: int)
    ensures score == 2 && answered == 1 && correct == 1
  {
    var s := new Session();
    s.Load([Question("1. Q", ["", "x"], "")]);
    s.CommitAnswerAsWritten("");
    s.CommitAnswerAsWritten("");
    assert s.userAnswers == map[0 := ""];
    assert CorrectlyAnswered(s.userAnswers, s.quizData) == {0};
    score, answered, correct := s.score, |s.userAnswers|, |CorrectlyAnswered(s.userAnswers, s.quizData)|;
  }

  /** The same two commits through `CommitAnswer`: the second is ignored and the score is 1. */
  method EmptyAnswerScoredOnce() returns (score: int, answered: int)
    ensures score == 1 && answered == 1
  {
    var s := new Session();
    s.Load([Question("1. Q", ["", "x"], "")]);
    s.CommitAnswer("");
    s.CommitAnswer("");
    assert s.userAnswers == map[0 := ""];
    score, answered := s.score, |s.userAnswers|;
  }
}
