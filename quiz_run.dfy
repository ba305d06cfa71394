/** The quiz run view's state: the quizzes built from the menu, which of them
    is active, and whether the active quiz's result has been logged. */
module QuizRun {
  import opened Quizzes
  import StudyData

  datatype QuizRunStatePersist = QuizRunStatePersist(quizzes: seq<QuizState>, statsCollected: bool, activeQuiz: nat)

  /** The quiz objects of a quiz list. */
  ghost function ObjectsOf(qs: seq<Quiz>): set<object> {
    set i | 0 <= i < |qs| :: qs[i].quiz
  }

  /** Each quiz of the list is its own object. */
  ghost predicate Separate(qs: seq<Quiz>) {
    forall i, j :: 0 <= i < j < |qs| ==> qs[i].quiz != qs[j].quiz
  }

  /** `quizzes.iter().map(save_state)`: one state per quiz, in order. */
  function SaveAll(qs: seq<Quiz>): (r: seq<QuizState>)
    reads ObjectsOf(qs)
    ensures |r| == |qs|
    ensures forall i :: 0 <= i < |qs| ==> r[i] == qs[i].SaveState()
  {
    if |qs| == 0 then []
    else
      assert ObjectsOf(qs[..|qs| - 1]) <= ObjectsOf(qs);
      SaveAll(qs[..|qs| - 1]) + [qs[|qs| - 1].SaveState()]
  }

  /** `into_iter().map(Quiz::load_state)`: one fresh quiz per state, in order,
      each saving back to its state. */
  method LoadAll(states: seq<QuizState>) returns (qs: seq<Quiz>)
    ensures |qs| == |states|
    ensures forall i :: 0 <= i < |qs| ==> fresh(qs[i].quiz)
    ensures Separate(qs)
    ensures SaveAll(qs) == states
  {
    qs := [];
    for i := 0 to |states|
      invariant |qs| == i
      invariant forall j :: 0 <= j < i ==> fresh(qs[j].quiz)
      invariant Separate(qs)
      invariant forall j :: 0 <= j < i ==> qs[j].SaveState() == states[j]
    {
      var q := Quizzes.LoadState(states[i]);
      qs := qs + [q];
    }
  }

  class QuizRunState {
    var quizzes: seq<Quiz>
    var statsCollected: bool
    var activeQuiz: nat

    ghost function Objects(): set<object>
      reads this
    {
      ObjectsOf(quizzes)
    }

    /** `Default`: no quizzes, nothing collected, index 0. */
    constructor Default()
      ensures quizzes == [] && !statsCollected && activeQuiz == 0
    {
      quizzes := [];
      statsCollected := false;
      activeQuiz := 0;
    }

    function SaveState(): (s: QuizRunStatePersist)
      reads this, Objects()
      ensures s.quizzes == SaveAll(quizzes)
      ensures s.statsCollected == statsCollected && s.activeQuiz == activeQuiz
    {
      QuizRunStatePersist(SaveAll(quizzes), statsCollected, activeQuiz)
    }

    /** `load_state`: fresh quizzes from the saved states and the flag and
        index as saved; the index is not checked against the quiz count. */
    constructor LoadState(state: QuizRunStatePersist)
      ensures SaveState() == state
      ensures forall i :: 0 <= i < |quizzes| ==> fresh(quizzes[i].quiz)
      ensures Separate(quizzes)
    {
      var qs := LoadAll(state.quizzes);
      quizzes := qs;
      statsCollected := state.statsCollected;
      activeQuiz := state.activeQuiz;
    }

    /** Saving depends on this state and its quiz objects only. */
    twostate lemma SaveStateFrame()
      requires unchanged(this) && unchanged(Objects())
      ensures SaveState() == old(SaveState())
    {
    }

    /** `get_active_quiz`: the quiz at the active index, which must be in range. */
    function GetActiveQuiz(): (q: Quiz)
      reads this
      requires activeQuiz < |quizzes|
      ensures q in quizzes && q.quiz in Objects()
    {
      quizzes[activeQuiz]
    }

    /** `restart_active_quiz`: clears the collected flag and starts the active
        quiz afresh; no other quiz object is touched. */
    method RestartActiveQuiz(data: StudyData.WorldStudyData)
      requires activeQuiz < |quizzes|
      requires |data.countryCodes| > 0
      modifies this, quizzes[activeQuiz].quiz
      ensures !statsCollected
      ensures quizzes == old(quizzes) && activeQuiz == old(activeQuiz)
      ensures var q := quizzes[activeQuiz].quiz;
              && q.success.None? && q.started && q.answer == [] && q.tries == 0
              && q.solution.Some? && q.solution.value in data.countryCodes
              && q.settings == old(q.settings)
    {
      statsCollected := false;
      var q := GetActiveQuiz();
      q.Start(data);
    }

    /** `randomize_quiz`: some index within the quiz list becomes active and
        that quiz is restarted. An empty list has no index to pick. */
    method RandomizeQuiz(data: StudyData.WorldStudyData)
      requires |quizzes| > 0
      requires |data.countryCodes| > 0
      modifies this, Objects()
      ensures quizzes == old(quizzes)
      ensures activeQuiz < |quizzes| && !statsCollected
      ensures var q := quizzes[activeQuiz].quiz;
              && q.success.None? && q.started && q.answer == [] && q.tries == 0
              && q.solution.Some? && q.solution.value in data.countryCodes
              && q.settings == old(q.settings)
      ensures forall i :: 0 <= i < |quizzes| && quizzes[i].quiz != quizzes[activeQuiz].quiz ==>
                unchanged(quizzes[i].quiz)
    {
      var index :| 0 <= index < |quizzes|;
      activeQuiz := index;
      RestartActiveQuiz(data);
    }

    /** `load_quizzes`: the list is replaced and a random quiz of it started. */
    method LoadQuizzes(qs: seq<Quiz>, data: StudyData.WorldStudyData)
      requires |qs| > 0
      requires |data.countryCodes| > 0
      modifies this, ObjectsOf(qs)
      ensures quizzes == qs
      ensures activeQuiz < |quizzes| && !statsCollected
      ensures var q := quizzes[activeQuiz].quiz;
              && q.success.None? && q.started && q.answer == [] && q.tries == 0
              && q.solution.Some? && q.solution.value in data.countryCodes
              && q.settings == old(q.settings)
      ensures forall i :: 0 <= i < |quizzes| && quizzes[i].quiz != quizzes[activeQuiz].quiz ==>
                unchanged(quizzes[i].quiz)
    {
      quizzes := qs;
      RandomizeQuiz(data);
    }
  }
}
