/** The settings of the flag-name quiz: the number of tries allowed. */
module QuizSettings {
  import opened Common

  datatype FlagNameCountryQuizSettings = FlagNameCountryQuizSettings(maxTries: u8)

  /** `Default`: a single try. */
  function DefaultSettings(): (s: FlagNameCountryQuizSettings)
    ensures s.maxTries == 1
    ensures InSliderRange(s)
  {
    FlagNameCountryQuizSettings(1)
  }

  /** The range the settings slider allows, `1..=10`. */
  predicate InSliderRange(s: FlagNameCountryQuizSettings) {
    1 <= s.maxTries <= 10
  }
}
