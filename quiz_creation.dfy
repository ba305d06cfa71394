/** `QuizSettingsTrait::create_quiz` for the flag-quiz settings. */
module QuizCreation {
  import opened Common
  import opened QuizSettings
  import FlagNameQuiz
  import Quizzes

  /** A new flag quiz, fresh in every field, carrying a copy of the
      settings; the settings themselves are a value and stay as they were. */
  method CreateQuiz(settings: FlagNameCountryQuizSettings) returns (q: Quizzes.Quiz)
    ensures fresh(q.quiz)
    ensures q.quiz.success.None? && !q.quiz.started && q.quiz.solution.None? && q.quiz.answer == [] && q.quiz.tries == 0
    ensures q.quiz.settings == settings
    ensures InSliderRange(settings) ==> q.quiz.TriesInvariant()
  {
    var inner := new FlagNameQuiz.FlagNameCountryQuiz.WithSettings(settings);
    q := Quizzes.Quiz.FlagNameCountry(inner);
  }
}
