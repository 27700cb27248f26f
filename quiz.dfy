/** The quiz page (src/pages/quiz.js): the question list fetched once for
    the stored user identifier, each question's options built from its answer
    and wrong answers, and the play state `score` / `questionIndex` /
    `gameStatus` moved by answering and by starting over. The shuffle is an
    oracle; the fetch outcome is a parameter. */
module Quiz {
  import opened Js
  import opened JsonData

  datatype Status = Playing | Finished

  /** A question as the page holds it: `{...q, answers}`. Fields read from
      the fetched object are `Access` values, since `q.answer` may be
      `undefined`. */
  datatype Card = Card(question: Access, answer: Access, answers: seq<Access>)

  /** The three play-state cells. */
  datatype Play = Play(score: nat, questionIndex: nat, gameStatus: Status)

  /** `useState('playing')`, `useState(0)`, `useState(0)`. */
  function Initial(): Play
  {
    Play(0, 0, Playing)
  }

  // ---------------------------------------------------------------------------
  // Building the cards

  /** The values `...v` contributes to an array literal, or `None` when `v`
      is not iterable (a TypeError). Strings spread into one-character strings. */
  function SpreadValues(v: Access): (r: Option<seq<Access>>)
    ensures v.Found? && v.value.JArr? ==> r == Some(seq(|v.value.items|, i requires 0 <= i < |v.value.items| => Found(v.value.items[i])))
    ensures v.Found? && v.value.JStr? ==>
              r.Some? && |r.value| == |v.value.s| && forall i :: 0 <= i < |r.value| ==> r.value[i] == Found(JStr([v.value.s[i]]))
    ensures r.None? <==> !(v.Found? && (v.value.JArr? || v.value.JStr?))
  {
    match v
    case Found(JArr(items)) => Some(seq(|items|, i requires 0 <= i < |items| => Found(items[i])))
    case Found(JStr(s)) => Some(seq(|s|, i requires 0 <= i < |s| => Found(JStr([s[i]]))))
    case _ => None
  }

  /** `[q.answer, ...q.wrongAnswers]`, or `None` when building it throws:
      `q` is `null`, or its `wrongAnswers` is not iterable. */
  function OptionsOf(q: Json): (r: Option<seq<Access>>)
    ensures r.Some? ==> |r.value| >= 1 && r.value[0] == Member(q, "answer")
    ensures r.Some? <==> !q.JNull? && SpreadValues(Member(q, "wrongAnswers")).Some?
    ensures r.Some? ==> r.value[1..] == SpreadValues(Member(q, "wrongAnswers")).value
  {
    if q.JNull? then None
    else
      match SpreadValues(Member(q, "wrongAnswers"))
      case None => None
      case Some(rest) => Some([Member(q, "answer")] + rest)
  }

  /** `data.map(q => ({...q, answers: shuffleArray([q.answer, ...q.wrongAnswers])}))`,
      or `None` when `data` is not an array or some item throws, in which
      case nothing is stored. */
  function BuildCards(data: Json, shuffle: seq<Access> -> seq<Access>): (r: Option<seq<Card>>)
    ensures r.Some? <==> data.JArr? && forall i :: 0 <= i < |data.items| ==> OptionsOf(data.items[i]).Some?
    ensures r.Some? ==> |r.value| == |data.items| && forall i :: 0 <= i < |r.value| ==>
              r.value[i] == Card(Member(data.items[i], "question"), Member(data.items[i], "answer"),
                                 shuffle(OptionsOf(data.items[i]).value))
  {
    if data.JArr? && forall i :: 0 <= i < |data.items| ==> OptionsOf(data.items[i]).Some? then
      Some(seq(|data.items|, i requires 0 <= i < |data.items| =>
        Card(Member(data.items[i], "question"), Member(data.items[i], "answer"), shuffle(OptionsOf(data.items[i]).value))))
    else None
  }

  ghost predicate IsPermutation(shuffle: seq<Access> -> seq<Access>)
  {
    forall xs :: multiset(shuffle(xs)) == multiset(xs)
  }

  /** With a shuffle that only reorders, each card's options are exactly its
      answer and its wrong answers, and the answer is among them. */
  lemma CardOptions(data: Json, shuffle: seq<Access> -> seq<Access>, i: nat)
    requires IsPermutation(shuffle)
    requires BuildCards(data, shuffle).Some? && i < |BuildCards(data, shuffle).value|
    ensures var c := BuildCards(data, shuffle).value[i];
      && multiset(c.answers) == multiset([Member(data.items[i], "answer")] + SpreadValues(Member(data.items[i], "wrongAnswers")).value)
      && c.answer in c.answers
  {
    var c := BuildCards(data, shuffle).value[i];
    var opts := OptionsOf(data.items[i]).value;
    assert opts == [opts[0]] + opts[1..];
    assert multiset(c.answers) == multiset(opts);
    assert c.answer in multiset(opts);
  }

  // ---------------------------------------------------------------------------
  // Playing

  /** A click on option `k` is possible only while playing and while a
      question is shown at the index. */
  predicate CanAnswer(p: Play, cards: seq<Card>, k: nat)
  {
    p.gameStatus == Playing && p.questionIndex < |cards| && k < |cards[p.questionIndex].answers|
  }

  /** `handleOnClick` for option `k` of the current question. */
  function Answer(p: Play, cards: seq<Card>, k: nat): (r: Play)
    requires CanAnswer(p, cards, k)
    ensures var c := cards[p.questionIndex];
      && (c.answers[k] == c.answer ==> r.score == p.score + 1)
      && (c.answers[k] != c.answer ==> r.score == p.score)
    ensures p.questionIndex + 1 == |cards| ==> r.gameStatus == Finished && r.questionIndex == p.questionIndex
    ensures p.questionIndex + 1 != |cards| ==> r.gameStatus == Playing && r.questionIndex == p.questionIndex + 1
  {
    var c := cards[p.questionIndex];
    var score := if c.answers[k] == c.answer then p.score + 1 else p.score;
    if p.questionIndex + 1 == |cards| then Play(score, p.questionIndex, Finished)
    else Play(score, p.questionIndex + 1, Playing)
  }

  /** How many questions have been answered. */
  function Answered(p: Play): nat
  {
    if p.gameStatus == Finished then p.questionIndex + 1 else p.questionIndex
  }

  /** `0 <= score <= answered <= total`, and a finished game has answered them all. */
  predicate Consistent(p: Play, cards: seq<Card>)
  {
    p.score <= Answered(p) <= |cards| && (p.gameStatus == Finished ==> Answered(p) == |cards|)
  }

  lemma InitialConsistent(cards: seq<Card>)
    ensures Consistent(Initial(), cards)
  {
  }

  /** Every answer keeps the play state consistent and answers one more question. */
  lemma AnswerKeepsConsistent(p: Play, cards: seq<Card>, k: nat)
    requires Consistent(p, cards) && CanAnswer(p, cards, k)
    ensures Consistent(Answer(p, cards, k), cards)
    ensures Answered(Answer(p, cards, k)) == Answered(p) + 1
  {
  }

  /** A finished game accepts no answer. */
  lemma FinishedIsFinal(p: Play, cards: seq<Card>, k: nat)
    requires p.gameStatus == Finished
    ensures !CanAnswer(p, cards, k)
  {
  }

  /** A run of clicks: each is applied if it is possible, and ignored otherwise. */
  function Run(p: Play, cards: seq<Card>, clicks: seq<nat>): Play
    decreases |clicks|
  {
    if clicks == [] then p
    else if CanAnswer(p, cards, clicks[0]) then Run(Answer(p, cards, clicks[0]), cards, clicks[1..])
    else Run(p, cards, clicks[1..])
  }

  /** Whether click `k` on question `i` picks the right answer. */
  predicate Hit(cards: seq<Card>, i: nat, k: nat)
    requires i < |cards|
  {
    k < |cards[i].answers| && cards[i].answers[k] == cards[i].answer
  }

  /** The number of right picks among `clicks`, the `j`-th click being on question `from + j`. */
  function Hits(cards: seq<Card>, from: nat, clicks: seq<nat>): nat
    requires from + |clicks| <= |cards|
    decreases |clicks|
  {
    if clicks == [] then 0 else (if Hit(cards, from, clicks[0]) then 1 else 0) + Hits(cards, from + 1, clicks[1..])
  }

  predicate ValidClicks(cards: seq<Card>, from: nat, clicks: seq<nat>)
  {
    from + |clicks| == |cards| && forall j :: 0 <= j < |clicks| ==> clicks[j] < |cards[from + j].answers|
  }

  lemma {:induction false} RunFrom(cards: seq<Card>, score: nat, from: nat, clicks: seq<nat>)
    requires |clicks| >= 1 && ValidClicks(cards, from, clicks)
    ensures Run(Play(score, from, Playing), cards, clicks) == Play(score + Hits(cards, from, clicks), |cards| - 1, Finished)
    decreases |clicks|
  {
    var p := Play(score, from, Playing);
    assert CanAnswer(p, cards, clicks[0]);
    var q := Answer(p, cards, clicks[0]);
    if |clicks| == 1 {
      assert clicks[1..] == [];
    } else {
      assert ValidClicks(cards, from + 1, clicks[1..]) by {
        forall j | 0 <= j < |clicks[1..]| ensures clicks[1..][j] < |cards[from + 1 + j].answers| {
          assert clicks[1..][j] == clicks[j + 1];
        }
      }
      RunFrom(cards, q.score, from + 1, clicks[1..]);
    }
  }

  /** Answering every question once from the start finishes the game with
      the score equal to the number of right picks; in particular all right
      picks score the full total. */
  lemma PlayThrough(cards: seq<Card>, clicks: seq<nat>)
    requires |cards| >= 1 && ValidClicks(cards, 0, clicks)
    ensures Run(Initial(), cards, clicks) == Play(Hits(cards, 0, clicks), |cards| - 1, Finished)
    ensures (forall j :: 0 <= j < |clicks| ==> Hit(cards, j, clicks[j])) ==> Hits(cards, 0, clicks) == |cards|
  {
    RunFrom(cards, 0, 0, clicks);
    if forall j :: 0 <= j < |clicks| ==> Hit(cards, j, clicks[j]) {
      AllHits(cards, 0, clicks);
    }
  }

  lemma {:induction false} AllHits(cards: seq<Card>, from: nat, clicks: seq<nat>)
    requires from + |clicks| <= |cards|
    requires forall j :: 0 <= j < |clicks| ==> Hit(cards, from + j, clicks[j])
    ensures Hits(cards, from, clicks) == |clicks|
    decreases |clicks|
  {
    if clicks != [] {
      assert Hit(cards, from, clicks[0]);
      forall j | 0 <= j < |clicks[1..]| ensures Hit(cards, from + 1 + j, clicks[1..][j]) {
        assert clicks[1..][j] == clicks[j + 1];
      }
      AllHits(cards, from + 1, clicks[1..]);
    }
  }

  /** `startOver`: back to the initial play state. */
  function StartOver(p: Play): (r: Play)
    ensures r == Initial()
  {
    Play(0, 0, Playing)
  }

  /** The request the page makes: the stored identifier in the `uuid` query parameter. */
  function QuestionsUrl(userUUID: string): string
  {
    "/api/getQuestions?uuid=" + userUUID
  }

  /** The page instance. */
  class QuizPage {
    var questions: seq<Card>
    var gameStatus: Status
    var score: nat
    var questionIndex: nat
    var userUUID: Option<string>

    function PlayState(): Play
      reads this
    {
      Play(score, questionIndex, gameStatus)
    }

    /** The first render: no questions, the initial play state, no identifier read yet. */
    constructor ()
      ensures questions == [] && PlayState() == Initial() && userUUID == None
    {
      questions := [];
      gameStatus := Playing;
      score := 0;
      questionIndex := 0;
      userUUID := None;
    }

    /** The mount effect: read `userUUID` from local storage (`stored`) and,
        when it is truthy, fetch the questions. `reply` is the parsed body,
        or `None` when the fetch or the parsing rejected; a reply that is not
        an array, or whose items throw, is only logged. */
    method LoadQuestions(stored: Option<string>, reply: Option<Json>, shuffle: seq<Access> -> seq<Access>)
      returns (requestUrl: Option<string>)
      modifies this
      ensures userUUID == stored
      ensures requestUrl == if TruthyString(stored) then Some(QuestionsUrl(stored.value)) else None
      ensures questions == if TruthyString(stored) && reply.Some? && BuildCards(reply.value, shuffle).Some?
                           then BuildCards(reply.value, shuffle).value else old(questions)
      ensures PlayState() == old(PlayState())
    {
      userUUID := stored;
      requestUrl := None;
      if stored.Some? && stored.value != "" {
        requestUrl := Some(QuestionsUrl(stored.value));
        if reply.Some? {
          var cards := BuildCards(reply.value, shuffle);
          if cards.Some? {
            questions := cards.value;
          }
        }
      }
    }

    /** `handleOnClick` on option `k` of the question shown. */
    method Click(k: nat)
      requires CanAnswer(PlayState(), questions, k)
      modifies this
      ensures questions == old(questions) && userUUID == old(userUUID)
      ensures PlayState() == Answer(old(PlayState()), questions, k)
    {
      var card := questions[questionIndex];
      if card.answers[k] == card.answer {
        score := score + 1;
      }
      if questionIndex + 1 == |questions| {
        gameStatus := Finished;
      } else {
        questionIndex := questionIndex + 1;
      }
    }

    /** `startOver`: the play state is reset, the questions kept. */
    method StartOver()
      modifies this
      ensures PlayState() == Initial()
      ensures questions == old(questions) && userUUID == old(userUUID)
    {
      gameStatus := Playing;
      score := 0;
      questionIndex := 0;
    }
  }
}
