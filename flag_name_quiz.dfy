/** The newer flag quiz (`quiz/types/flag_name_country.rs`): a flag is shown,
    the player types a country name and has `max_tries` attempts. `success`
    is None while the quiz is open, `Some(true)` once answered correctly and
    `Some(false)` once the tries are used up or the player gave up. The
    registry the source reaches through `get_data()` is passed in. */
module FlagNameQuiz {
  import opened Common
  import opened QuizSettings
  import StudyData

  datatype FlagNameCountryQuizState = FlagNameCountryQuizState(
    success: Option<bool>, started: bool, solution: Option<string>, answer: string, tries: u8,
    settings: FlagNameCountryQuizSettings)

  /** What the player did in one frame of `render` while the quiz is open:
      nothing, a submission (Enter or the Submit button) or "Dunno". */
  datatype Action = NoAction | SubmitAnswer | Dunno

  /** `tries += 1` on a `u8` in a release build, which wraps. */
  function Increment(tries: u8): (r: u8)
    ensures tries < 255 ==> r as int == tries as int + 1
    ensures tries == 255 ==> r == 0
  {
    if tries == 255 then 0 else tries + 1
  }

  /** The comparison `submit` makes, ignoring letter case. */
  predicate IsRightAnswer(answer: string, name: string) {
    ToLower(answer) == ToLower(name)
  }

  class FlagNameCountryQuiz {
    var success: Option<bool>
    var started: bool
    var solution: Option<string>
    var answer: string
    var tries: u8
    var settings: FlagNameCountryQuizSettings

    /** While the quiz is open at least one try is left. */
    ghost predicate TriesInvariant()
      reads this
    {
      success.None? ==> tries < settings.maxTries
    }

    /** `with_settings`: a fresh quiz that carries the given settings. */
    constructor WithSettings(settings: FlagNameCountryQuizSettings)
      ensures success.None? && !started && solution.None? && answer == [] && tries == 0
      ensures this.settings == settings
      ensures TriesInvariant() <==> settings.maxTries >= 1
    {
      success, started, solution, answer, tries := None, false, None, "", 0;
      this.settings := settings;
    }

    /** `Default`: the fresh quiz with default settings. */
    constructor Default()
      ensures success.None? && !started && solution.None? && answer == [] && tries == 0
      ensures settings == DefaultSettings()
      ensures TriesInvariant()
    {
      success, started, solution, answer, tries := None, false, None, "", 0;
      settings := DefaultSettings();
    }

    function SaveState(): (s: FlagNameCountryQuizState)
      reads this
      ensures s.success == success && s.started == started && s.solution == solution
      ensures s.answer == answer && s.tries == tries && s.settings == settings
    {
      FlagNameCountryQuizState(success, started, solution, answer, tries, settings)
    }

    /** `load_state`: every field from the state, so saving again gives the
        same state back. */
    constructor LoadState(state: FlagNameCountryQuizState)
      ensures SaveState() == state
    {
      success, started, solution, answer, tries := state.success, state.started, state.solution, state.answer, state.tries;
      settings := state.settings;
    }

    /** `tries_left`; the `u8` subtraction would underflow past `max_tries`. */
    function TriesLeft(): (r: u8)
      reads this
      requires tries <= settings.maxTries
      ensures r as int + tries as int == settings.maxTries as int
    {
      settings.maxTries - tries
    }

    /** `submit`: one more try; a right answer succeeds, a wrong one fails the
        quiz when the tries are used up and otherwise clears the answer.
        Afterwards an open quiz always has a try left. */
    method Submit(data: StudyData.WorldStudyData, countryCode: string)
      requires data.GetCountry(countryCode).Some?
      modifies this
      ensures tries == Increment(old(tries))
      ensures var right := IsRightAnswer(old(answer), data.GetCountry(countryCode).value.name);
              && (right ==> success == Some(true) && answer == old(answer))
              && (!right && tries >= settings.maxTries ==> success == Some(false) && answer == old(answer))
              && (!right && tries < settings.maxTries ==> success == old(success) && answer == [])
      ensures started == old(started) && solution == old(solution) && settings == old(settings)
      ensures TriesInvariant()
      ensures old(success.None? && TriesInvariant()) ==> tries as int == old(tries) as int + 1
    {
      var country := data.GetCountry(countryCode).value;
      var rightAnswer := ToLower(answer) == ToLower(country.name);
      tries := Increment(tries);
      if rightAnswer {
        success := Some(true);
      } else if tries >= settings.maxTries {
        success := Some(false);
      } else {
        answer := "";
      }
    }

    /** `start`: marks the quiz started and picks a solution among the
        registry's codes (`choose(...).unwrap()` needs one). */
    method Start(data: StudyData.WorldStudyData)
      requires |data.countryCodes| > 0
      modifies this
      ensures started && solution.Some? && solution.value in data.countryCodes
      ensures success == old(success) && answer == old(answer) && tries == old(tries) && settings == old(settings)
    {
      started := true;
      assert data.countryCodes[0] in data.countryCodes;
      var code :| code in data.countryCodes;
      solution := Some(code);
    }

    function HasStarted(): bool
      reads this
    {
      started
    }

    function IsSuccessful(): Option<bool>
      reads this
    {
      success
    }

    /** `reset`: everything back to fresh except the settings. */
    method Reset()
      modifies this
      ensures success.None? && !started && solution.None? && answer == [] && tries == 0
      ensures settings == old(settings)
      ensures TriesInvariant() <==> settings.maxTries >= 1
    {
      success, started, solution, answer, tries := None, false, None, "", 0;
    }

    /** The state changes of one `render` frame: nothing without a solution;
        while open, a submission runs `submit` on the solution and "Dunno"
        fails the quiz; a decided quiz only shows its result. The return value
        is `success` after the frame. */
    method Render(data: StudyData.WorldStudyData, action: Action) returns (r: Option<bool>)
      requires solution.Some? && success.None? && action == SubmitAnswer ==> data.GetCountry(solution.value).Some?
      modifies this
      ensures solution.None? ==> r.None? && unchanged(this)
      ensures old(solution).Some? ==> r == success
      ensures old(success).Some? || action == NoAction ==> unchanged(this)
      ensures old(solution).Some? && old(success).None? && action == Dunno ==>
                success == Some(false) && tries == old(tries) && answer == old(answer)
      ensures old(solution).Some? && old(success).None? && action == SubmitAnswer ==>
                && tries == Increment(old(tries))
                && var right := IsRightAnswer(old(answer), data.GetCountry(old(solution).value).value.name);
                   && (right ==> success == Some(true) && answer == old(answer))
                   && (!right && tries >= settings.maxTries ==> success == Some(false) && answer == old(answer))
                   && (!right && tries < settings.maxTries ==> success.None? && answer == [])
      ensures old(TriesInvariant()) ==> TriesInvariant()
      ensures solution == old(solution) && started == old(started) && settings == old(settings)
    {
      if solution.None? {
        return None;
      }
      var countryCode := solution.value;
      if success.None? {
        match action {
          case SubmitAnswer => Submit(data, countryCode);
          case Dunno => success := Some(false);
          case NoAction =>
        }
      }
      r := success;
    }
  }

  /** While the quiz is open the tries-left label cannot underflow and shows
      at least one try. */
  lemma TriesLeftWhileOpen(quiz: FlagNameCountryQuiz)
    requires quiz.TriesInvariant() && quiz.success.None?
    ensures quiz.tries <= quiz.settings.maxTries
    ensures quiz.TriesLeft() >= 1
  {
  }
}
