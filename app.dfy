/** The application object: the current view, the log of finished quizzes and
    the per-view states, with the persisted `AppState` they round-trip
    through. The two frame steps that move between the quiz views (the menu's
    Start button and the run's result and Next handling) are modelled on top;
    the GUI that reports clicks is a parameter. */
module App {
  import opened Common
  import StudyData
  import WorldMap
  import ExploreView = Explore
  import QuizMenuView = QuizMenu
  import QuizRunView = QuizRun

  datatype UIView = MainMenu | StudyMenu | Explore | QuizMenu | QuizRun

  /** `UIView::default()`. */
  const DEFAULT_VIEW := MainMenu

  datatype QuizStatsCommon = QuizStatsCommon(startedAtMs: nat, finishedAtMs: nat)
  datatype FlagNameCountryQuizStats = FlagNameCountryQuizStats(common: QuizStatsCommon)
  datatype QuizStats = FlagNameCountry(stats: FlagNameCountryQuizStats)

  datatype AppState = AppState(
    lastView: UIView,
    quizHistory: seq<QuizStats>,
    exploreState: ExploreView.ExploreStatePersist,
    quizMenuState: QuizMenuView.QuizMenuStatePersist,
    quizRunState: QuizRunView.QuizRunStatePersist)

  /** The explore view's `load_state`, seen from the app: a fresh state and a
      fresh map that save back to `state`. */
  method LoadExplore(state: ExploreView.ExploreStatePersist) returns (e: ExploreView.ExploreState)
    ensures fresh(e) && fresh(e.worldMap)
    ensures e.SaveState() == state
  {
    e := new ExploreView.ExploreState.LoadState(state);
  }

  /** The quiz run's `load_state`, seen from the app: a fresh state that saves
      back to `state`. */
  method LoadQuizRun(state: QuizRunView.QuizRunStatePersist) returns (r: QuizRunView.QuizRunState)
    ensures fresh(r)
    ensures r.SaveState() == state
  {
    r := new QuizRunView.QuizRunState.LoadState(state);
  }

  class WorldStudyApp {
    var currentView: UIView
    var quizHistory: seq<QuizStats>
    /** The study menu's only state, its world map. */
    const studyMenuMap: WorldMap.WorldMapState
    const explore: ExploreView.ExploreState
    const quizMenu: QuizMenuView.QuizMenuState
    const quizRun: QuizRunView.QuizRunState

    /** `Default`: the main menu, an empty history and default view states. */
    constructor Default()
      ensures currentView == DEFAULT_VIEW && quizHistory == []
      ensures fresh(studyMenuMap) && fresh(explore) && fresh(explore.worldMap) && fresh(quizMenu) && fresh(quizRun)
      ensures explore.OpenWindows() == {ExploreView.DetailsWindow}
      ensures !quizMenu.HasAtLeastOneQuizEnabled()
      ensures quizRun.quizzes == []
    {
      currentView := DEFAULT_VIEW;
      quizHistory := [];
      studyMenuMap := new WorldMap.WorldMapState.Default();
      explore := new ExploreView.ExploreState.Default();
      quizMenu := new QuizMenuView.QuizMenuState.Default();
      quizRun := new QuizRunView.QuizRunState.Default();
    }

    /** `switch_view`: the target becomes current and nothing else changes. */
    method SwitchView(target: UIView)
      modifies this
      ensures currentView == target
      ensures quizHistory == old(quizHistory)
    {
      currentView := target;
    }

    /** `log_quiz_stats`: the stats go to the end of the history. */
    method LogQuizStats(stats: QuizStats)
      modifies this
      ensures quizHistory == old(quizHistory) + [stats]
      ensures quizHistory[..|old(quizHistory)|] == old(quizHistory)
      ensures currentView == old(currentView)
    {
      quizHistory := quizHistory + [stats];
    }

    /** `save_state`: the view, the history and the three persisted view
        states; the two menus without state are not saved. */
    function SaveState(): (s: AppState)
      reads this, explore, explore.worldMap, quizMenu, quizRun, quizRun.Objects()
      ensures s.lastView == currentView && s.quizHistory == quizHistory
      ensures s.exploreState == explore.SaveState()
      ensures s.quizMenuState == quizMenu.SaveState()
      ensures s.quizRunState == quizRun.SaveState()
    {
      AppState(currentView, quizHistory, explore.SaveState(), quizMenu.SaveState(), quizRun.SaveState())
    }

    /** `load_state`: every persisted part loaded by its own `load_state`, the
        study menu rebuilt with a fresh map; saving again gives the state back. */
    constructor LoadState(state: AppState)
      ensures SaveState() == state
      ensures fresh(studyMenuMap) && fresh(explore) && fresh(explore.worldMap) && fresh(quizMenu) && fresh(quizRun)
      ensures studyMenuMap.sceneRect == WorldMap.DEFAULT_SCENE_RECT
      ensures studyMenuMap.selectedCountry.None? && studyMenuMap.selectedCapital.None?
      ensures studyMenuMap.hoveredCountry.None? && studyMenuMap.hoveredCapital.None? && studyMenuMap.mousePosition.None?
    {
      currentView := state.lastView;
      quizHistory := state.quizHistory;
      var map' := new WorldMap.WorldMapState.Default();
      var explore' := LoadExplore(state.exploreState);
      var menu' := new QuizMenuView.QuizMenuState.LoadState(state.quizMenuState);
      var run' := LoadQuizRun(state.quizRunState);
      label Loaded:
      studyMenuMap, explore, quizMenu, quizRun := map', explore', menu', run';
      new;
      run'.SaveStateFrame@Loaded();
    }

    /** The quiz menu's Start button, which is only enabled while some quiz
        is: the built list is therefore never empty, the run is loaded with
        it and becomes the current view. */
    method StartQuizzes(data: StudyData.WorldStudyData)
      requires quizMenu.HasAtLeastOneQuizEnabled()
      requires |data.countryCodes| > 0
      modifies this, quizRun
      ensures currentView == QuizRun && quizHistory == old(quizHistory)
      ensures |quizRun.quizzes| == 1 && quizRun.activeQuiz == 0 && !quizRun.statsCollected
      ensures var q := quizRun.quizzes[0].quiz;
              && fresh(q) && q.settings == quizMenu.flagNameQuizSettings
              && q.success.None? && q.started && q.answer == [] && q.tries == 0
              && q.solution.Some? && q.solution.value in data.countryCodes
    {
      var quizzes := quizMenu.BuildQuizzes();
      quizRun.LoadQuizzes(quizzes, data);
      SwitchView(QuizRun);
    }

    /** The quiz run view's frame after the active quiz rendered `outcome`:
        the back button switches to the menu; a decided quiz has its `stats`
        logged unless they were collected already, and the Next button (or
        the space key) moves on to a random quiz, restarted. */
    method QuizRunFrame(back: bool, outcome: Option<bool>, stats: Option<QuizStats>, next: bool,
                        data: StudyData.WorldStudyData)
      requires quizRun.activeQuiz < |quizRun.quizzes|
      requires outcome.Some? && next ==> |data.countryCodes| > 0
      modifies this, quizRun, quizRun.Objects()
      ensures currentView == if back then QuizMenu else old(currentView)
      ensures var logged := outcome.Some? && !old(quizRun.statsCollected) && stats.Some?;
              quizHistory == old(quizHistory) + (if logged then [stats.value] else [])
      ensures old(quizRun.statsCollected) ==> quizHistory == old(quizHistory)
      ensures quizRun.quizzes == old(quizRun.quizzes) && quizRun.activeQuiz < |quizRun.quizzes|
      ensures outcome.Some? && next ==>
                && !quizRun.statsCollected
                && var q := quizRun.quizzes[quizRun.activeQuiz].quiz;
                   && q.success.None? && q.started && q.answer == [] && q.tries == 0
                   && q.solution.Some? && q.solution.value in data.countryCodes
                   && q.settings == old(q.settings)
      ensures outcome.Some? && next ==>
                forall i :: 0 <= i < |quizRun.quizzes| && quizRun.quizzes[i].quiz != quizRun.quizzes[quizRun.activeQuiz].quiz ==>
                  unchanged(quizRun.quizzes[i].quiz)
      ensures !(outcome.Some? && next) ==>
                && quizRun.activeQuiz == old(quizRun.activeQuiz)
                && quizRun.statsCollected == (old(quizRun.statsCollected) || (outcome.Some? && stats.Some?))
                && forall i :: 0 <= i < |quizRun.quizzes| ==> unchanged(quizRun.quizzes[i].quiz)
    {
      if back {
        SwitchView(QuizMenu);
      }
      if outcome.Some? {
        if !quizRun.statsCollected {
          if stats.Some? {
            LogQuizStats(stats.value);
            quizRun.statsCollected := true;
          }
        }
        if next {
          quizRun.RandomizeQuiz(data);
        }
      }
    }
  }
}
