/** The `Quiz` wrapper: today a single variant around the flag quiz. It
    dispatches queries and resets to the wrapped quiz, and its `start` resets
    before starting, so a restarted quiz is fresh. In this snapshot
    `quiz.rs` names the older quiz type while `create_quiz` builds the newer
    one; the model wraps the newer one, which is what every caller builds. */
module Quizzes {
  import opened Common
  import opened QuizSettings
  import FlagNameQuiz
  import StudyData

  datatype QuizState = FlagNameCountry(state: FlagNameQuiz.FlagNameCountryQuizState)

  datatype Quiz = FlagNameCountry(quiz: FlagNameQuiz.FlagNameCountryQuiz)
  {
    function SaveState(): (s: QuizState)
      reads quiz
      ensures s.state == quiz.SaveState()
    {
      QuizState.FlagNameCountry(quiz.SaveState())
    }

    function HasStarted(): (r: bool)
      reads quiz
      ensures r == quiz.started
    {
      quiz.HasStarted()
    }

    function IsSuccessful(): (r: Option<bool>)
      reads quiz
      ensures r == quiz.success
    {
      quiz.IsSuccessful()
    }

    method Reset()
      modifies quiz
      ensures quiz.success.None? && !quiz.started && quiz.solution.None? && quiz.answer == [] && quiz.tries == 0
      ensures quiz.settings == old(quiz.settings)
    {
      quiz.Reset();
    }

    /** `start`: `reset` and then the inner `start`: the quiz is open, started,
        with a fresh solution from the registry, no answer and no tries. */
    method Start(data: StudyData.WorldStudyData)
      requires |data.countryCodes| > 0
      modifies quiz
      ensures quiz.success.None? && quiz.started && quiz.answer == [] && quiz.tries == 0
      ensures quiz.solution.Some? && quiz.solution.value in data.countryCodes
      ensures quiz.settings == old(quiz.settings)
      ensures quiz.TriesInvariant() <==> quiz.settings.maxTries >= 1
    {
      quiz.Reset();
      quiz.Start(data);
    }

    /** `render`: a decided quiz returns its result untouched; otherwise a quiz
        that has not started is started first, then the inner `render` runs. */
    method Render(data: StudyData.WorldStudyData, action: FlagNameQuiz.Action) returns (r: Option<bool>)
      requires quiz.success.None? && !quiz.started ==> |data.countryCodes| > 0
      requires action == FlagNameQuiz.SubmitAnswer && quiz.success.None? ==>
                 && (quiz.started && quiz.solution.Some? ==> data.GetCountry(quiz.solution.value).Some?)
                 && (!quiz.started ==> forall c :: c in data.countryCodes ==> data.GetCountry(c).Some?)
      modifies quiz
      ensures old(quiz.success).Some? ==> r == old(quiz.success) && unchanged(quiz)
      ensures old(quiz.success).None? && !old(quiz.started) ==>
                quiz.started && quiz.solution.Some? && quiz.solution.value in data.countryCodes && r == quiz.success
      ensures old(quiz.success).None? && old(quiz.started) ==> quiz.solution == old(quiz.solution)
      ensures old(quiz.success).None? && quiz.solution.Some? ==> r == quiz.success
      ensures old(quiz.success).None? && old(quiz.started) && old(quiz.TriesInvariant()) ==> quiz.TriesInvariant()
      ensures old(quiz.success).None? && action == FlagNameQuiz.Dunno && quiz.solution.Some? ==> r == Some(false)
      ensures old(quiz.success).None? && old(quiz.started) && old(quiz.solution).Some? && action == FlagNameQuiz.SubmitAnswer ==>
                && quiz.tries == FlagNameQuiz.Increment(old(quiz.tries))
                && var right := FlagNameQuiz.IsRightAnswer(old(quiz.answer), data.GetCountry(old(quiz.solution).value).value.name);
                   && (right ==> quiz.success == Some(true) && quiz.answer == old(quiz.answer))
                   && (!right && quiz.tries >= quiz.settings.maxTries ==> quiz.success == Some(false) && quiz.answer == old(quiz.answer))
                   && (!right && quiz.tries < quiz.settings.maxTries ==> quiz.success.None? && quiz.answer == [])
      ensures quiz.settings == old(quiz.settings)
    {
      if IsSuccessful().Some? {
        return IsSuccessful();
      }
      if !HasStarted() {
        Start(data);
      }
      r := quiz.Render(data, action);
    }
  }

  /** `Default`: the flag quiz with default settings. */
  method DefaultQuiz() returns (q: Quiz)
    ensures fresh(q.quiz)
    ensures q.quiz.success.None? && !q.quiz.started && q.quiz.solution.None? && q.quiz.answer == [] && q.quiz.tries == 0
    ensures q.quiz.settings == DefaultSettings()
  {
    var inner := new FlagNameQuiz.FlagNameCountryQuiz.Default();
    q := Quiz.FlagNameCountry(inner);
  }

  /** `load_state`: the variant named by the state around the inner quiz
      loaded from it, so saving again gives the state back. */
  method LoadState(state: QuizState) returns (q: Quiz)
    ensures fresh(q.quiz)
    ensures q.SaveState() == state
  {
    var quiz := new FlagNameQuiz.FlagNameCountryQuiz.LoadState(state.state);
    q := Quiz.FlagNameCountry(quiz);
  }
}
