/** The quiz menu view's state: the flag quiz's settings and whether that quiz
    is enabled. The menu builds the quiz list a run starts from. */
module QuizMenu {
  import opened QuizSettings
  import Quizzes
  import QuizCreation

  datatype QuizMenuStatePersist = QuizMenuStatePersist(flagNameQuizSettings: FlagNameCountryQuizSettings, flagNameQuizEnabled: bool)

  class QuizMenuState {
    var flagNameQuizSettings: FlagNameCountryQuizSettings
    var flagNameQuizEnabled: bool

    /** `Default`: default settings, quiz disabled. */
    constructor Default()
      ensures flagNameQuizSettings == DefaultSettings() && !flagNameQuizEnabled
    {
      flagNameQuizSettings := DefaultSettings();
      flagNameQuizEnabled := false;
    }

    /** `build_quizzes`: one new flag quiz with the current settings when that
        quiz is enabled, none otherwise; the menu itself is left alone. */
    method BuildQuizzes() returns (qs: seq<Quizzes.Quiz>)
      ensures |qs| == if flagNameQuizEnabled then 1 else 0
      ensures |qs| > 0 <==> HasAtLeastOneQuizEnabled()
      ensures forall i :: 0 <= i < |qs| ==>
                && fresh(qs[i].quiz)
                && qs[i].quiz.settings == flagNameQuizSettings
                && qs[i].quiz.success.None? && !qs[i].quiz.started && qs[i].quiz.solution.None?
                && qs[i].quiz.answer == [] && qs[i].quiz.tries == 0
    {
      qs := [];
      if flagNameQuizEnabled {
        var q := QuizCreation.CreateQuiz(flagNameQuizSettings);
        qs := qs + [q];
      }
    }

    predicate HasAtLeastOneQuizEnabled()
      reads this
    {
      flagNameQuizEnabled
    }

    function SaveState(): (s: QuizMenuStatePersist)
      reads this
      ensures s.flagNameQuizSettings == flagNameQuizSettings && s.flagNameQuizEnabled == flagNameQuizEnabled
    {
      QuizMenuStatePersist(flagNameQuizSettings, flagNameQuizEnabled)
    }

    /** `load_state`: settings and flag as saved, so saving again gives the
        same state. */
    constructor LoadState(state: QuizMenuStatePersist)
      ensures SaveState() == state
    {
      flagNameQuizSettings := state.flagNameQuizSettings;
      flagNameQuizEnabled := state.flagNameQuizEnabled;
    }
  }
}
