/** The explore view's state: its world map and which of its three auxiliary
    windows are open. */
module Explore {
  import WorldMap

  datatype ExploreStatePersist = ExploreStatePersist(
    worldMap: WorldMap.WorldMapStatePersist,
    debugWindowEnabled: bool, detailsWindowEnabled: bool, bigFlagWindowEnabled: bool)

  datatype AuxWindow = DebugWindow | DetailsWindow | BigFlagWindow

  class ExploreState {
    const worldMap: WorldMap.WorldMapState
    var debugWindowEnabled: bool
    var detailsWindowEnabled: bool
    var bigFlagWindowEnabled: bool

    /** `Default`: a default map, the details window open and the other two
        closed. */
    constructor Default()
      ensures fresh(worldMap)
      ensures worldMap.sceneRect == WorldMap.DEFAULT_SCENE_RECT
      ensures worldMap.hoveredCountry.None? && worldMap.hoveredCapital.None?
      ensures worldMap.selectedCountry.None? && worldMap.selectedCapital.None? && worldMap.mousePosition.None?
      ensures !debugWindowEnabled && detailsWindowEnabled && !bigFlagWindowEnabled
      ensures OpenWindows() == {DetailsWindow}
    {
      worldMap := new WorldMap.WorldMapState.Default();
      debugWindowEnabled := false;
      detailsWindowEnabled := true;
      bigFlagWindowEnabled := false;
    }

    /** The auxiliary windows `render` shows this frame: each exactly when its
        flag is set. */
    function OpenWindows(): (r: set<AuxWindow>)
      reads this
      ensures DebugWindow in r <==> debugWindowEnabled
      ensures DetailsWindow in r <==> detailsWindowEnabled
      ensures BigFlagWindow in r <==> bigFlagWindowEnabled
    {
      (if debugWindowEnabled then {DebugWindow} else {})
      + (if detailsWindowEnabled then {DetailsWindow} else {})
      + (if bigFlagWindowEnabled then {BigFlagWindow} else {})
    }

    /** `save_state`: the map's own persisted state and the three flags. */
    function SaveState(): (s: ExploreStatePersist)
      reads this, worldMap
      ensures s.worldMap == worldMap.SaveState()
      ensures s.debugWindowEnabled == debugWindowEnabled && s.detailsWindowEnabled == detailsWindowEnabled
      ensures s.bigFlagWindowEnabled == bigFlagWindowEnabled
    {
      ExploreStatePersist(worldMap.SaveState(), debugWindowEnabled, detailsWindowEnabled, bigFlagWindowEnabled)
    }

    /** `load_state`: the map loaded by `WorldMapState::load_state` and the
        flags as saved; saving again gives the same state. */
    constructor LoadState(state: ExploreStatePersist)
      ensures fresh(worldMap)
      ensures SaveState() == state
      ensures worldMap.hoveredCountry.None? && worldMap.hoveredCapital.None? && worldMap.mousePosition.None?
    {
      worldMap := new WorldMap.WorldMapState.LoadState(state.worldMap);
      debugWindowEnabled := state.debugWindowEnabled;
      detailsWindowEnabled := state.detailsWindowEnabled;
      bigFlagWindowEnabled := state.bigFlagWindowEnabled;
    }
  }
}
