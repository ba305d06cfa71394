/** The world map component: which country or capital the cursor is over,
    which one a click selects, which of a country's three mesh variants is
    drawn, and the persisted part of the state. Painting and the scene's pan
    and zoom are the GUI library's; the polygon under the cursor is a lookup
    the caller supplies. */
module WorldMap {
  import opened Common
  import opened Paint
  import opened IdentifiedPolygons
  import StudyData

  datatype SceneRect = SceneRect(min: Pos2, max: Pos2)

  /** The initial view: (-180, -180) to (180, 180). */
  const DEFAULT_SCENE_RECT := SceneRect(Pos2(-180.0, -180.0), Pos2(180.0, 180.0))

  /** `WorldMapStatePersist`: the rectangle's corners and the two selections. */
  datatype WorldMapStatePersist = WorldMapStatePersist(
    sceneRectMinX: real, sceneRectMinY: real,
    sceneRectMaxX: real, sceneRectMaxY: real,
    selectedCountry: Option<string>, selectedCapital: Option<string>)

  /** The hovered country and capital after the map was queried under the
      cursor: a country polygon clears the capital, a capital clears the
      country, and nothing under the cursor clears both. */
  function HoverTarget(found: Option<IdentifiedPolygon>): (r: (Option<string>, Option<string>))
    ensures r.0.None? || r.1.None?
    ensures found.None? <==> r.0.None? && r.1.None?
    ensures r.0.Some? <==> found.Some? && found.value.polygonType == IdentifiedPolygonType.Country
    ensures r.1.Some? <==> found.Some? && found.value.polygonType == IdentifiedPolygonType.Capital
    ensures r.0.Some? ==> r.0.value == found.value.id
    ensures r.1.Some? ==> r.1.value == found.value.id
  {
    match found
    case None => (None, None)
    case Some(polygon) =>
      match polygon.polygonType
      case Country => (Some(polygon.id), None)
      case Capital => (None, Some(polygon.id))
  }

  /** A click's effect on one selection: clicking the selected item again
      deselects it, clicking another one selects that one, and clicking where
      nothing of the kind is hovered clears the selection. */
  function Toggle(selected: Option<string>, hovered: Option<string>): (r: Option<string>)
    ensures r.Some? <==> hovered.Some? && selected != hovered
    ensures r.Some? ==> r == hovered
  {
    match hovered
    case None => None
    case Some(h) => if selected == Some(h) then None else Some(h)
  }

  /** Two clicks on the same hovered item restore a selection of that item
      and clear any other; clicking on nothing twice is clicking once. */
  lemma ToggleTwice(selected: Option<string>, hovered: Option<string>)
    ensures hovered.Some? ==> Toggle(Toggle(selected, hovered), hovered) == (if selected == hovered then hovered else None)
    ensures hovered.None? ==> Toggle(Toggle(selected, hovered), hovered) == Toggle(selected, hovered)
  {
    if hovered.Some? && selected != hovered {
      assert Toggle(selected, hovered) == hovered;
    }
  }

  /** While at most one of country and capital is hovered, a click leaves at
      most one of them selected. */
  lemma ClickSelectsAtMostOne(selectedCountry: Option<string>, selectedCapital: Option<string>,
                              hoveredCountry: Option<string>, hoveredCapital: Option<string>)
    requires hoveredCountry.None? || hoveredCapital.None?
    ensures Toggle(selectedCountry, hoveredCountry).None? || Toggle(selectedCapital, hoveredCapital).None?
  {
    if hoveredCountry.Some? {
      assert Toggle(selectedCapital, hoveredCapital) == None;
    } else {
      assert Toggle(selectedCountry, hoveredCountry) == None;
    }
  }

  datatype MeshVariant = DefaultVariant | HoveredVariant | SelectedVariant

  /** Selection wins over hovering, and neither gives the default meshes. */
  function VariantOf(isSelected: bool, isHovered: bool): (v: MeshVariant)
    ensures v == SelectedVariant <==> isSelected
    ensures v == HoveredVariant <==> !isSelected && isHovered
    ensures v == DefaultVariant <==> !isSelected && !isHovered
  {
    if isSelected then SelectedVariant else if isHovered then HoveredVariant else DefaultVariant
  }

  function MeshesIn(cm: CountryMeshes, v: MeshVariant): seq<Shape> {
    match v
    case DefaultVariant => cm.default
    case HoveredVariant => cm.hovered
    case SelectedVariant => cm.selected
  }

  /** `draw_country` without the capital markers: the chosen variant's meshes
      if the country has meshes, then its outlines if it has any. */
  function DrawCountry(data: StudyData.WorldStudyData, code: string, isSelected: bool, isHovered: bool): seq<Shape> {
    (match data.GetCountryMeshes(code)
     case None => []
     case Some(cm) => MeshesIn(cm, VariantOf(isSelected, isHovered)))
    + (match data.GetCountryOutlines(code)
       case None => []
       case Some(outlines) => outlines)
  }

  /** The piece each code of `codes` adds to the frame. */
  function Pieces(data: StudyData.WorldStudyData, codes: seq<string>,
                  selected: Option<string>, hovered: Option<string>): (r: seq<seq<Shape>>)
    ensures |r| == |codes|
    ensures forall i :: 0 <= i < |codes| ==>
              r[i] == DrawCountry(data, codes[i], Some(codes[i]) == selected, Some(codes[i]) == hovered)
  {
    seq(|codes|, i requires 0 <= i < |codes| =>
      DrawCountry(data, codes[i], Some(codes[i]) == selected, Some(codes[i]) == hovered))
  }

  /** What the country loop adds in code order. */
  function Painted(data: StudyData.WorldStudyData, codes: seq<string>,
                   selected: Option<string>, hovered: Option<string>): seq<Shape>
  {
    if |codes| == 0 then []
    else Painted(data, codes[..|codes| - 1], selected, hovered)
         + DrawCountry(data, codes[|codes| - 1], Some(codes[|codes| - 1]) == selected, Some(codes[|codes| - 1]) == hovered)
  }

  /** The frame is the countries' pieces one after another, in code order. */
  lemma {:induction false} PaintedPieces(data: StudyData.WorldStudyData, codes: seq<string>,
                                         selected: Option<string>, hovered: Option<string>)
    ensures Painted(data, codes, selected, hovered) == Concat(Pieces(data, codes, selected, hovered))
  {
    if |codes| > 0 {
      var n := |codes| - 1;
      PaintedPieces(data, codes[..n], selected, hovered);
      assert Pieces(data, codes, selected, hovered)[..n] == Pieces(data, codes[..n], selected, hovered);
    }
  }

  /** The meshes a country's piece starts with. */
  function Chosen(cm: CountryMeshes, code: string, selected: Option<string>, hovered: Option<string>): seq<Shape> {
    if selected == Some(code) then cm.selected
    else if hovered == Some(code) then cm.hovered
    else cm.default
  }

  /** A country with meshes is drawn starting with the chosen variant's meshes. */
  lemma DrawCountryStartsWithVariant(data: StudyData.WorldStudyData, code: string,
                                     selected: Option<string>, hovered: Option<string>)
    requires data.GetCountryMeshes(code).Some?
    ensures var want := Chosen(data.GetCountryMeshes(code).value, code, selected, hovered);
            var piece := DrawCountry(data, code, Some(code) == selected, Some(code) == hovered);
            |want| <= |piece| && piece[..|want|] == want
  {
  }

  /** The selected country's selected meshes are drawn, in their own order and
      in one run starting where the earlier countries' pieces end, and so are
      a hovered, unselected country's hovered meshes and an untouched one's
      default meshes. */
  lemma SelectedCountryDrawnSelected(data: StudyData.WorldStudyData, codes: seq<string>,
                                     selected: Option<string>, hovered: Option<string>, i: nat)
    requires i < |codes|
    requires data.GetCountryMeshes(codes[i]).Some?
    ensures var want := Chosen(data.GetCountryMeshes(codes[i]).value, codes[i], selected, hovered);
            var o := SumLengths(Pieces(data, codes, selected, hovered)[..i]);
            && o + |want| <= |Painted(data, codes, selected, hovered)|
            && Painted(data, codes, selected, hovered)[o..o + |want|] == want
  {
    var want := Chosen(data.GetCountryMeshes(codes[i]).value, codes[i], selected, hovered);
    var pieces := Pieces(data, codes, selected, hovered);
    var all := Painted(data, codes, selected, hovered);
    var o := SumLengths(pieces[..i]);
    DrawCountryStartsWithVariant(data, codes[i], selected, hovered);
    assert |want| <= |pieces[i]| && pieces[i][..|want|] == want;
    PaintedPieces(data, codes, selected, hovered);
    assert all == Concat(pieces);
    ConcatPrefixSlice(pieces, i, |want|);
  }

  class WorldMapState {
    var sceneRect: SceneRect
    var hoveredCountry: Option<string>
    var hoveredCapital: Option<string>
    var selectedCountry: Option<string>
    var selectedCapital: Option<string>
    var mousePosition: Option<Pos2>

    /** At most one of country and capital is hovered. */
    predicate HoverExclusive()
      reads this
    {
      hoveredCountry.None? || hoveredCapital.None?
    }

    /** `Default`: the rectangle from (-180, -180) to (180, 180), nothing
        hovered, selected or pointed at. */
    constructor Default()
      ensures sceneRect == DEFAULT_SCENE_RECT
      ensures hoveredCountry.None? && hoveredCapital.None? && selectedCountry.None? && selectedCapital.None?
      ensures mousePosition.None?
      ensures HoverExclusive()
    {
      sceneRect := DEFAULT_SCENE_RECT;
      hoveredCountry := None;
      hoveredCapital := None;
      selectedCountry := None;
      selectedCapital := None;
      mousePosition := None;
    }

    function SaveState(): (s: WorldMapStatePersist)
      reads this
      ensures s.selectedCountry == selectedCountry && s.selectedCapital == selectedCapital
      ensures SceneRect(Pos2(s.sceneRectMinX, s.sceneRectMinY), Pos2(s.sceneRectMaxX, s.sceneRectMaxY)) == sceneRect
    {
      WorldMapStatePersist(sceneRect.min.x, sceneRect.min.y, sceneRect.max.x, sceneRect.max.y,
                           selectedCountry, selectedCapital)
    }

    /** `load_state`: the rectangle and the selections come back; hovering
        and the cursor start empty. Saving again gives the same state. */
    constructor LoadState(state: WorldMapStatePersist)
      ensures SaveState() == state
      ensures hoveredCountry.None? && hoveredCapital.None? && mousePosition.None?
      ensures HoverExclusive()
    {
      sceneRect := SceneRect(Pos2(state.sceneRectMinX, state.sceneRectMinY), Pos2(state.sceneRectMaxX, state.sceneRectMaxY));
      hoveredCountry := None;
      hoveredCapital := None;
      selectedCountry := state.selectedCountry;
      selectedCapital := state.selectedCapital;
      mousePosition := None;
    }

    /** The hover step: only while the map area is hovered and has a cursor
        position, which is remembered and used to query the map at (x, -y). */
    method UpdateHover(isHovered: bool, cursor: Option<Pos2>, polygonAt: (real, real) -> Option<IdentifiedPolygon>)
      modifies this
      ensures isHovered && cursor.Some? ==>
                && mousePosition == cursor
                && (hoveredCountry, hoveredCapital) == HoverTarget(polygonAt(cursor.value.x, -cursor.value.y))
      ensures !(isHovered && cursor.Some?) ==>
                mousePosition == old(mousePosition) && hoveredCountry == old(hoveredCountry) && hoveredCapital == old(hoveredCapital)
      ensures old(HoverExclusive()) ==> HoverExclusive()
      ensures sceneRect == old(sceneRect) && selectedCountry == old(selectedCountry) && selectedCapital == old(selectedCapital)
    {
      if isHovered {
        if cursor.Some? {
          var mousePos := cursor.value;
          mousePosition := Some(mousePos);
          var found := polygonAt(mousePos.x, -mousePos.y);
          if found.Some? {
            var id := found.value.id;
            match found.value.polygonType {
              case Country =>
                hoveredCapital := None;
                hoveredCountry := Some(id);
              case Capital =>
                hoveredCountry := None;
                hoveredCapital := Some(id);
            }
          } else {
            hoveredCountry := None;
            hoveredCapital := None;
          }
        }
      }
    }

    /** The click step: both selections toggle against what is hovered. */
    method UpdateSelection(clicked: bool)
      modifies this
      ensures clicked ==> selectedCountry == Toggle(old(selectedCountry), hoveredCountry)
                          && selectedCapital == Toggle(old(selectedCapital), hoveredCapital)
      ensures clicked && HoverExclusive() ==> selectedCountry.None? || selectedCapital.None?
      ensures !clicked ==> selectedCountry == old(selectedCountry) && selectedCapital == old(selectedCapital)
      ensures sceneRect == old(sceneRect) && hoveredCountry == old(hoveredCountry)
              && hoveredCapital == old(hoveredCapital) && mousePosition == old(mousePosition)
    {
      if clicked {
        if hoveredCountry.Some? {
          var hovered := hoveredCountry.value;
          selectedCountry := if selectedCountry == Some(hovered) then None else Some(hovered);
        } else {
          selectedCountry := None;
        }
        if hoveredCapital.Some? {
          var hovered := hoveredCapital.value;
          selectedCapital := if selectedCapital == Some(hovered) then None else Some(hovered);
        } else {
          selectedCapital := None;
        }
      }
    }

    /** The country loop: one `draw_country` per code, in code order. */
    method PaintCountries(data: StudyData.WorldStudyData) returns (painted: seq<Shape>)
      ensures painted == Painted(data, data.countryCodes, selectedCountry, hoveredCountry)
    {
      var codes := data.countryCodes;
      painted := [];
      for i := 0 to |codes|
        invariant painted == Painted(data, codes[..i], selectedCountry, hoveredCountry)
      {
        var code := codes[i];
        var isSelected := Some(code) == selectedCountry;
        var isHovered := Some(code) == hoveredCountry;
        painted := painted + DrawCountry(data, code, isSelected, isHovered);
        assert codes[..i + 1][..i] == codes[..i];
      }
      assert codes[..|codes|] == codes;
    }

    /** `draw` for one frame: the scene library leaves the rectangle at
        `viewport`; then the hover step, the click step, and the countries
        painted against the updated selection and hover. */
    method Draw(data: StudyData.WorldStudyData, viewport: SceneRect, isHovered: bool, cursor: Option<Pos2>,
                clicked: bool, polygonAt: (real, real) -> Option<IdentifiedPolygon>)
      returns (painted: seq<Shape>)
      modifies this
      ensures sceneRect == viewport
      ensures isHovered && cursor.Some? ==>
                && mousePosition == cursor
                && (hoveredCountry, hoveredCapital) == HoverTarget(polygonAt(cursor.value.x, -cursor.value.y))
      ensures !(isHovered && cursor.Some?) ==>
                mousePosition == old(mousePosition) && hoveredCountry == old(hoveredCountry) && hoveredCapital == old(hoveredCapital)
      ensures clicked ==> selectedCountry == Toggle(old(selectedCountry), hoveredCountry)
                          && selectedCapital == Toggle(old(selectedCapital), hoveredCapital)
      ensures !clicked ==> selectedCountry == old(selectedCountry) && selectedCapital == old(selectedCapital)
      ensures old(HoverExclusive()) ==> HoverExclusive()
      ensures clicked && HoverExclusive() ==> selectedCountry.None? || selectedCapital.None?
      ensures painted == Painted(data, data.countryCodes, selectedCountry, hoveredCountry)
    {
      sceneRect := viewport;
      UpdateHover(isHovered, cursor, polygonAt);
      UpdateSelection(clicked);
      painted := PaintCountries(data);
    }
  }
}
