/** The recovery quiz: which questions are asked, and how the collected answers
    are graded (all or nothing, with a correction for every wrong answer). */
module Quiz {
  import opened Content

  /** At most this many questions are asked. */
  const MaxQuestions: nat := 10

  /** The number of questions asked from a catalog of `n`: the smaller of 10 and `n`. */
  function QuizSize(n: nat): (k: nat)
    ensures k <= MaxQuestions && k <= n
    ensures k == MaxQuestions || k == n
  {
    if n < MaxQuestions then n else MaxQuestions
  }

  /** `selection` is a possible outcome of sampling `QuizSize(n)` positions of a
      catalog of `n` questions without replacement. */
  predicate IsSample(selection: seq<nat>, n: nat)
  {
    |selection| == QuizSize(n) &&
    (forall i :: 0 <= i < |selection| ==> selection[i] < n) &&
    (forall i, j :: 0 <= i < j < |selection| ==> selection[i] != selection[j])
  }

  /** The questions at the sampled positions, in the order sampled. */
  function Sample(catalog: seq<QuizQuestion>, selection: seq<nat>): (list: seq<QuizQuestion>)
    requires IsSample(selection, |catalog|)
    ensures |list| == QuizSize(|catalog|)
    ensures forall i :: 0 <= i < |list| ==> list[i] == catalog[selection[i]]
  {
    seq(|selection|, i requires 0 <= i < |selection| => catalog[selection[i]])
  }

  /** The positions 0 .. n - 1 of a catalog of `n`. */
  function Positions(n: nat): (ps: set<nat>)
    ensures forall p: nat :: p in ps <==> p < n
    ensures |ps| == n
  {
    if n == 0 then {} else Positions(n - 1) + {n - 1}
  }

  /** The positions a selection names. */
  function Members(s: seq<nat>): set<nat>
  {
    set x | x in s
  }

  lemma {:induction false} DistinctCard(s: seq<nat>)
    requires forall i, j :: 0 <= i < j < |s| ==> s[i] != s[j]
    ensures |Members(s)| == |s|
  {
    if s != [] {
      DistinctCard(s[1..]);
      var rest := Members(s[1..]);
      assert s[0] !in rest;
      assert rest !! {s[0]};
      assert Members(s) == rest + {s[0]};
    }
  }

  lemma {:induction false} SubsetCard(a: set<nat>, b: set<nat>)
    requires a <= b
    ensures |a| <= |b|
    decreases |b|
  {
    if a == {} {
    } else {
      var x :| x in a;
      assert a == (a - {x}) + {x} && (a - {x}) !! {x};
      assert b == (b - {x}) + {x} && (b - {x}) !! {x};
      SubsetCard(a - {x}, b - {x});
    }
  }

  /** A catalog of at most 10 questions is asked in full: every position is sampled. */
  lemma SmallCatalogFullyAsked(selection: seq<nat>, n: nat, p: nat)
    requires IsSample(selection, n) && n <= MaxQuestions && p < n
    ensures p in selection
  {
    if p !in selection {
      var chosen := Members(selection);
      var others := Positions(n) - {p};
      DistinctCard(selection);
      assert Positions(n) == others + {p} && others !! {p};
      SubsetCard(chosen, others);
    }
  }

  /** All answers match their question's answer. */
  predicate AllCorrect(questions: seq<QuizQuestion>, answers: seq<string>)
    requires |questions| <= |answers|
  {
    forall i :: 0 <= i < |questions| ==> answers[i] == questions[i].answer
  }

  /** The positions below `n` whose answer is wrong, in the order the grading loop meets them. */
  function WrongUpTo(questions: seq<QuizQuestion>, answers: seq<string>, n: nat): (wrong: seq<nat>)
    requires n <= |questions| <= |answers|
    ensures forall j :: 0 <= j < |wrong| ==> wrong[j] < n
  {
    if n == 0 then []
    else WrongUpTo(questions, answers, n - 1) +
         (if answers[n - 1] != questions[n - 1].answer then [n - 1] else [])
  }

  /** The positions of all wrong answers. */
  function Wrong(questions: seq<QuizQuestion>, answers: seq<string>): seq<nat>
    requires |questions| <= |answers|
  {
    WrongUpTo(questions, answers, |questions|)
  }

  /** A position is listed exactly when it is below `n` and its answer is wrong. */
  lemma {:induction false} WrongUpToExactly(questions: seq<QuizQuestion>, answers: seq<string>, n: nat, k: nat)
    requires n <= |questions| <= |answers|
    ensures k in WrongUpTo(questions, answers, n) <==> k < n && answers[k] != questions[k].answer
  {
    if n > 0 {
      WrongUpToExactly(questions, answers, n - 1, k);
    }
  }

  /** The wrong positions are listed in strictly increasing order. */
  lemma {:induction false} WrongUpToIncreasing(questions: seq<QuizQuestion>, answers: seq<string>, n: nat)
    requires n <= |questions| <= |answers|
    ensures forall i, j :: 0 <= i < j < |WrongUpTo(questions, answers, n)| ==>
      WrongUpTo(questions, answers, n)[i] < WrongUpTo(questions, answers, n)[j]
  {
    if n > 0 {
      WrongUpToIncreasing(questions, answers, n - 1);
    }
  }

  /** The quiz is passed exactly when no answer is wrong. */
  lemma PassIffAllCorrect(questions: seq<QuizQuestion>, answers: seq<string>)
    requires |questions| <= |answers|
    ensures Wrong(questions, answers) == [] <==> AllCorrect(questions, answers)
  {
    if Wrong(questions, answers) == [] {
      forall i | 0 <= i < |questions| ensures answers[i] == questions[i].answer {
        WrongUpToExactly(questions, answers, |questions|, i);
      }
    } else {
      var k := Wrong(questions, answers)[0];
      WrongUpToExactly(questions, answers, |questions|, k);
    }
  }

  /** Positions whose answers are right add nothing to the list. */
  lemma {:induction false} WrongUpToStable(questions: seq<QuizQuestion>, answers: seq<string>, m: nat, n: nat)
    requires m <= n <= |questions| <= |answers|
    requires forall i :: m <= i < n ==> answers[i] == questions[i].answer
    ensures WrongUpTo(questions, answers, n) == WrongUpTo(questions, answers, m)
    decreases n - m
  {
    if m < n {
      WrongUpToStable(questions, answers, m, n - 1);
    }
  }

  /** With exactly one wrong answer, the correction list names exactly that position. */
  lemma SingleMistake(questions: seq<QuizQuestion>, answers: seq<string>, j: nat)
    requires j < |questions| <= |answers|
    requires answers[j] != questions[j].answer
    requires forall i :: 0 <= i < |questions| && i != j ==> answers[i] == questions[i].answer
    ensures Wrong(questions, answers) == [j]
  {
    WrongUpToStable(questions, answers, j + 1, |questions|);
    WrongUpToStable(questions, answers, 0, j);
  }

  /** What the correction message shows for one wrong answer. */
  datatype Correction = Correction(index: nat, question: string, given: string, correct: string, explanation: string)

  function Describe(questions: seq<QuizQuestion>, answers: seq<string>, i: nat): Correction
    requires i < |questions| <= |answers|
  {
    Correction(i, OrDefault(questions[i].question, MissingQuestion), answers[i],
               questions[i].answer, OrDefault(questions[i].explanation, MissingExplanation))
  }

  /** The corrections for the listed positions, in list order. */
  function DescribeAll(questions: seq<QuizQuestion>, answers: seq<string>, positions: seq<nat>): seq<Correction>
    requires |questions| <= |answers|
    requires forall m :: 0 <= m < |positions| ==> positions[m] < |questions|
  {
    seq(|positions|, m requires 0 <= m < |positions| => Describe(questions, answers, positions[m]))
  }

  /** The full correction list of a graded quiz. */
  function Corrections(questions: seq<QuizQuestion>, answers: seq<string>): seq<Correction>
    requires |questions| <= |answers|
  {
    DescribeAll(questions, answers, Wrong(questions, answers))
  }

  /** The grading loop: one correction per wrong answer, in question order;
      no correction at all exactly when every answer is right. */
  method Grade(questions: seq<QuizQuestion>, answers: seq<string>) returns (corrections: seq<Correction>)
    requires |questions| <= |answers|
    ensures corrections == Corrections(questions, answers)
    ensures corrections == [] <==> AllCorrect(questions, answers)
  {
    corrections := [];
    for i := 0 to |questions|
      invariant corrections == DescribeAll(questions, answers, WrongUpTo(questions, answers, i))
    {
      if answers[i] != questions[i].answer {
        corrections := corrections + [Describe(questions, answers, i)];
      }
    }
    PassIffAllCorrect(questions, answers);
  }
}
