/** The quiz data model: one decoded trivia question, the answers the list
    row shows for it, and the color class of its difficulty label. */
module QuizModel {

  datatype Option<+T> = None | Some(value: T)

  /** The embedded `question` object of a trivia item. */
  datatype Question = Question(text: string)

  /** One trivia item as the JSON array of the trivia endpoint delivers it.
      `kind` holds the JSON field `type`, which the app never interprets. */
  datatype QuizItem = QuizItem(
    category: string,
    id: string,
    correctAnswer: string,
    incorrectAnswers: seq<string>,
    question: Question,
    tags: seq<string>,
    kind: string,
    difficulty: string,
    regions: seq<string>,
    isNiche: bool)

  /** The answers before shuffling: the distractors followed by the correct answer. */
  function Pool(item: QuizItem): (p: seq<string>)
    ensures |p| == |item.incorrectAnswers| + 1
    ensures p[|p| - 1] == item.correctAnswer
    ensures p[..|p| - 1] == item.incorrectAnswers
  {
    item.incorrectAnswers + [item.correctAnswer]
  }

  /** The item the trivia service is expected to send: the correct answer is
      not also listed as a distractor. The app assumes this and never checks it. */
  predicate WellFormed(item: QuizItem)
  {
    item.correctAnswer !in item.incorrectAnswers
  }

  /** `s` with the elements at `i` and `j` exchanged. */
  function Swap(s: seq<string>, i: nat, j: nat): (t: seq<string>)
    requires i < |s| && j < |s|
    ensures |t| == |s| && t[i] == s[j] && t[j] == s[i]
    ensures forall k :: 0 <= k < |s| && k != i && k != j ==> t[k] == s[k]
    ensures multiset(t) == multiset(s)
  {
    s[i := s[j]][j := s[i]]
  }

  /** `allAnswers`: the pool in some order. The loop follows the standard
      library's shuffle pass (a shrinking `amount`, a random offset below it,
      a swap at the current index); each draw of the random source is a
      nondeterministic choice, so the contract holds for every ordering the
      pass can produce. Callers rely only on the length and multiset clauses. */
  method AllAnswers(item: QuizItem) returns (answers: seq<string>)
    ensures |answers| == |item.incorrectAnswers| + 1
    ensures multiset(answers) == multiset(Pool(item))
    ensures item.correctAnswer in answers
  {
    answers := Pool(item);
    var current, amount := 0, |answers|;
    while amount > 1
      invariant current + amount == |answers| == |item.incorrectAnswers| + 1
      invariant multiset(answers) == multiset(Pool(item))
    {
      var offset :| 0 <= offset < amount;
      amount := amount - 1;
      answers := Swap(answers, current, current + offset);
      current := current + 1;
    }
    assert item.correctAnswer in multiset(Pool(item));
  }

  /** If `s[i] == s[j]` for two different positions, that text occurs at least twice. */
  lemma {:induction false} RepeatedCountsTwice(s: seq<string>, i: nat, j: nat)
    requires i < j < |s| && s[i] == s[j]
    ensures multiset(s)[s[i]] >= 2
  {
    assert s == s[..j] + s[j..];
    assert s[i] == s[..j][i];
    assert s[j] == s[j..][0];
    assert multiset(s) == multiset(s[..j]) + multiset(s[j..]);
  }

  /** Whatever order the shuffle produced, the correct answer is among the
      answers; this holds for every item, well formed or not. */
  lemma {:induction false} CorrectAnswerPresent(item: QuizItem, answers: seq<string>)
    requires multiset(answers) == multiset(Pool(item))
    ensures exists k :: 0 <= k < |answers| && answers[k] == item.correctAnswer
  {
    var c := item.correctAnswer;
    assert Pool(item)[|Pool(item)| - 1] == c;
    assert c in multiset(answers);
    var k :| 0 <= k < |answers| && answers[k] == c;
  }

  /** When the item is well formed, the correct answer sits at no more than one
      position, whatever order the shuffle produced. */
  lemma {:induction false} CorrectAnswerAtMostOnce(item: QuizItem, answers: seq<string>)
    requires WellFormed(item)
    requires multiset(answers) == multiset(Pool(item))
    ensures forall i, j ::
              0 <= i < |answers| && 0 <= j < |answers| &&
              answers[i] == item.correctAnswer && answers[j] == item.correctAnswer
              ==> i == j
  {
    var c := item.correctAnswer;
    assert multiset(Pool(item)) == multiset(item.incorrectAnswers) + multiset{c};
    assert multiset(item.incorrectAnswers)[c] == 0;
    assert multiset(answers)[c] == 1;
    forall i, j | 0 <= i < |answers| && 0 <= j < |answers| && answers[i] == c && answers[j] == c
      ensures i == j
    {
      if i < j {
        RepeatedCountsTwice(answers, i, j);
      } else if j < i {
        RepeatedCountsTwice(answers, j, i);
      }
    }
  }

  /** Color class of a difficulty label. */
  datatype Color = Green | Yellow | Red | Secondary

  /** `difficultyColor`: the three known difficulties get their own color,
      every other text, the empty one included, gets the neutral one. */
  function DifficultyColor(difficulty: string): (c: Color)
    ensures c == Green <==> difficulty == "easy"
    ensures c == Yellow <==> difficulty == "medium"
    ensures c == Red <==> difficulty == "hard"
    ensures c == Secondary <==> difficulty !in {"easy", "medium", "hard"}
  {
    match difficulty
    case "easy" => Green
    case "medium" => Yellow
    case "hard" => Red
    case _ => Secondary
  }
}
