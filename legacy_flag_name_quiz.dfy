/** The older flag quiz (`quiz/flag_name_country.rs`): one answer decides the
    quiz, with no tries and no settings. */
module LegacyFlagNameQuiz {
  import opened Common
  import StudyData

  datatype FlagNameCountryQuizState = FlagNameCountryQuizState(
    success: Option<bool>, started: bool, solution: Option<string>, answer: string)

  /** What the player did in one frame: nothing or a submission. */
  datatype Action = NoAction | SubmitAnswer

  class FlagNameCountryQuiz {
    var success: Option<bool>
    var started: bool
    var solution: Option<string>
    var answer: string

    constructor Default()
      ensures success.None? && !started && solution.None? && answer == []
    {
      success, started, solution, answer := None, false, None, "";
    }

    function SaveState(): (s: FlagNameCountryQuizState)
      reads this
      ensures s.success == success && s.started == started && s.solution == solution && s.answer == answer
    {
      FlagNameCountryQuizState(success, started, solution, answer)
    }

    constructor LoadState(state: FlagNameCountryQuizState)
      ensures SaveState() == state
    {
      success, started, solution, answer := state.success, state.started, state.solution, state.answer;
    }

    /** `submit`: the verdict is whether the answer matches the country's
        name ignoring case; nothing else changes. */
    method Submit(data: StudyData.WorldStudyData, countryCode: string)
      requires data.GetCountry(countryCode).Some?
      modifies this
      ensures success == Some(ToLower(answer) == ToLower(data.GetCountry(countryCode).value.name))
      ensures started == old(started) && solution == old(solution) && answer == old(answer)
    {
      var country := data.GetCountry(countryCode).value;
      success := Some(ToLower(answer) == ToLower(country.name));
    }

    method Start(data: StudyData.WorldStudyData)
      requires |data.countryCodes| > 0
      modifies this
      ensures started && solution.Some? && solution.value in data.countryCodes
      ensures success == old(success) && answer == old(answer)
    {
      started := true;
      assert data.countryCodes[0] in data.countryCodes;
      var code :| code in data.countryCodes;
      solution := Some(code);
    }

    function HasStarted(): bool
      reads this
    {
      started
    }

    function IsSuccessful(): Option<bool>
      reads this
    {
      success
    }

    method Reset()
      modifies this
      ensures success.None? && !started && solution.None? && answer == []
    {
      success, started, solution, answer := None, false, None, "";
    }

    /** One `render` frame: without a solution nothing happens and the result
        is None; otherwise a submission judges the answer, and the result is
        `success` after the frame. Unlike the newer quiz, a decided quiz can
        be submitted again. */
    method Render(data: StudyData.WorldStudyData, action: Action) returns (r: Option<bool>)
      requires solution.Some? && action == SubmitAnswer ==> data.GetCountry(solution.value).Some?
      modifies this
      ensures started == old(started) && solution == old(solution) && answer == old(answer)
      ensures solution.None? ==> r.None? && unchanged(this)
      ensures old(solution).Some? ==> r == success
      ensures action == NoAction ==> unchanged(this)
      ensures old(solution).Some? && action == SubmitAnswer ==>
                success == Some(ToLower(answer) == ToLower(data.GetCountry(solution.value).value.name))
    {
      if solution.None? {
        return None;
      }
      var countryCode := solution.value;
      if action == SubmitAnswer {
        Submit(data, countryCode);
      }
      r := success;
    }
  }
}
