# World Study, modelled in Dafny

World Study is a desktop geography trainer written in Rust on egui. It loads
a registry of countries with their polygons and derives three caches from
it: triangle meshes in three fill colours, outline strokes and an R-tree of
identified polygons for point queries. A world map hovers and selects
countries on top of these caches. A flag-to-country quiz runs inside a
small view state machine. The application state is saved on exit and
restored on start.

This project models that core and proves what it promises:

- **Registries.** There are two generations of the registry: the one in the
  application, and the one in the separate data crate, which stores
  countries in a `DataMap`.
  - Both generations order their codes with the enclaves last, by a stable
    sort.
  - The caches have exactly the registry's keys.
  - A point query names a registered country and prefers an enclave.
- **Mesh builders.** The triangulator's input layout is proved: the
  flattened coordinates and the hole start indices.
  - The three mesh lists stay in lockstep, one entry per polygon that
    triangulated.
  - Each mesh carries one vertex per point and whole triangles.
- **Outlines and polygon tree.** There is one shape per polygon along its
  exterior ring. There is one tree entry per polygon, tagged with its
  country's code and enclave flag.
- **World map.** Hover and selection logic, the choice of mesh variant, the
  order in which countries are painted, and the persisted state.
- **Quizzes.** Both generations of the flag quiz, the `Quiz` wrapper,
  settings and quiz creation, the quiz menu and quiz run views, and the
  application's view switching, statistics log and saving and loading.
  Saving after loading gives every persisted state back.
- **Country data tool.** The merge loop of the country data generator.

Stateful objects are classes whose methods state their whole new state.
- Loops are methods proved against prefix-recursive specification
  functions.
- A `HashMap`'s iteration order is an explicit sequence of its keys, which
  the caller supplies.
- Geometry routines from libraries are parameters of the model: scaling,
  simplification, triangulation and point-in-polygon.
- So are the GUI's inputs (hover, cursor, clicks, key presses) and the
  random number generator, which is a non-deterministic choice (`:|`).

Where the code behaves unexpectedly or contradicts itself, the model follows the code:
- `get_country_code_at_point` resolves two overlapping polygons without
  priority in favour of whichever the R-tree yields last. The query's answer
  therefore depends on the order of the R-tree's candidates, and
  `StudyData.PointQueryDependsOnCandidateOrder` shows it.
- `quiz.rs` wraps the older flag quiz, but `create_quiz` builds the newer
  one. The model wraps the newer one, which every caller builds, and models
  the older one on its own.
- `region_exists` upper-cases only the name it is asked for (see
  Findings).
- The data crate's `lib.rs` reads `outlines` and `is_enclave` from its
  countries. Its `country.rs` has neither. The model gives the record the
  fields that `lib.rs` reads.
- `lib.rs` calls `DataMap::iter`, which `data_map.rs` does not define. The
  model takes the iteration order as a parameter.
- `polygon_tree.rs` calls `IdentifiedPolygon::new` with three arguments,
  but its constructor takes four. The model tags every entry as a country
  polygon.
- The world map calls `get_polygon_id_at_point`, which neither registry
  defines. The polygon under the cursor is a parameter of the hover step.
- `quiz_run.rs` calls `collect_stats`, which `Quiz` does not define. The
  statistics are a parameter of the quiz run frame.
- `app.rs` builds `StudyMenuState` as a unit value when it loads the state
  (src/app.rs:78), but `study_menu.rs` gives it a `world_map` field. The
  model reads this as the default state: loading gives the study menu a
  fresh default map.
- The tool's `JsonCountry` has fields that `country.rs`'s `JsonCountry`
  lacks. The tool is modelled with the fields it writes.

## Model

| member | source | states |
|---|---|---|
| StudyData.ScaleFactorTable | src/data.rs:20-26 | The scale factor of VA, SM, MC, TV and NR is the constant in the override table; every other code has 1.0. |
| StudyData.Simplified | src/data.rs:41-55 | Each polygon is replaced by its scaled (by the country's factor) and then simplified version, one for one; code, name and enclave flag are kept. |
| StudyData.ScaleAndSimplify | src/data.rs:41-55 | The in-place pass keeps the key set and rewrites every country to its scaled and simplified version. |
| StudyData.KeepIncluded | src/data.rs:57-68 | Exactly the keys other than the excluded "AQ" are kept, each with its own country. |
| StudyData.Codes | src/data.rs:70-75 | The code list lines up with the sorted countries, one code per country. |
| StudyData.WorldStudyData.Load | src/data.rs:37-88 | The registry satisfies its invariant; its countries are the scaled and simplified ones minus "AQ"; mesh and outline caches have exactly the country keys and each entry is the builder's result for that country. |
| StudyData.WorldStudyData.GetCountryOutlines | src/data.rs:109-111 | Found exactly when the code is a key of the outline cache, with that entry. |
| StudyData.WorldStudyData.GetCountryCodeAtPoint | src/data.rs:117-124 | None exactly when no candidate contains the point; otherwise the id of the last containing candidate with maximal priority. |
| StudyData.WorldStudyData.GetCountryMeshes | src/data.rs:113-115 | Found exactly when the code is a key of the mesh cache, with that entry. |
| StudyData.CodesFoundWhenKeyedByIso | src/data.rs:70-75 | When every country is stored under its own upper-case `iso_a2`, `get_country` finds every listed code, as the country carrying it. |
| StudyData.GetCountryIgnoresCase | src/data.rs:90-92 | `get_country` gives the same answer for a code, its lower-case and its upper-case spelling. |
| StudyData.GetCountriesSkipsUnknown | src/data.rs:94-99 | `get_countries` returns at most one country per code, each one found for some code; when every code is known the result lines up with the codes. |
| StudyData.CountryCodesEnclavesLast | src/data.rs:70-75 | One code per country; the ordered countries are a permutation of the map's, no enclave precedes a non-enclave and each group keeps the iteration order. |
| StudyData.PointQueryNamesLoadedCountry | src/data.rs:117-124 | A query over tree entries names a loaded country, and when a containing candidate is prioritised the answer is a prioritised candidate. |
| StudyData.PointQueryDependsOnCandidateOrder | src/data.rs:117-124 | Two unprioritised containing polygons: the answer is whichever comes last, so swapping their order swaps the answer. |
| MaxByKey.FilterMaxByKey | src/data.rs:120-123 | `filter` then `max_by_key`: None exactly when nothing is kept, otherwise the last kept index whose key is maximal. |
| MaxByKey.LastMaximumIsUnique | src/data.rs:120-123 | The last maximum is unique, so the query's contract determines its answer. |
| MaxByKey.PriorityWins | src/data.rs:120-123 | If any kept element has the priority flag, the chosen one has it too. |
| Common.ToUpper | src/data.rs:91 | `to_uppercase` on ASCII: same length, every character upper-cased. |
| Common.ToUpperIdempotent | src/data.rs:91 | Upper-casing twice is upper-casing once. |
| Common.ToUpperIgnoresCase | data/src/lib.rs:109-111 | Upper-casing a lower-cased string is upper-casing it. |
| Common.ToLowerIgnoresCase | src/app/components/quiz/types/flag_name_country.rs:70 | Lower-casing an upper-cased string is lower-casing it, so the answer check ignores case. |
| Common.SortByFlagSorts | src/data.rs:70 | `sort_by_key` on a boolean key is a permutation with the false elements first, and is stable. |
| Common.FilterMapSkipsMissing | src/data.rs:94-99 | `filter_map` keeps input order, returns the value of every found key and skips the others. |
| CountryMeshBuilder.Get | src/data/meshes.rs:11-13 | An exact-key lookup: found exactly when the code is a key, with that entry. |
| CountryMeshBuilder.HoleIndicesLocateHoles | src/data/meshes.rs:44-64 | Hole i's j-th point sits in `all_points` at `hole_indices[i] + j`, with y negated; there is one hole index per hole. |
| CountryMeshBuilder.FlattenAt | src/data/meshes.rs:44-64 | `flat_points` holds point k's x and y at 2k and 2k+1. |
| CountryMeshBuilder.PushHole | src/data/meshes.rs:52-64 | One hole's loop appends its negated points to both buffers and advances the counter by the hole's length. |
| CountryMeshBuilder.ExteriorPoints | src/data/meshes.rs:44-50 | The exterior loop puts the negated exterior on both buffers. |
| CountryMeshBuilder.HolePoints | src/data/meshes.rs:52-64 | After the hole loop the buffers hold the whole polygon's negated points and their flattening, and one start index per hole. |
| CountryMeshBuilder.HoleStep | src/data/meshes.rs:52-64 | One turn of the hole loop records the counter as the hole's start and then pushes the hole. |
| CountryMeshBuilder.TriangulationInput | src/data/meshes.rs:36-64 | The three buffers are exactly the polygon's `all_points`, its flattening and its hole start indices. |
| CountryMeshBuilder.MeshesMatchTriangulatedPolygons | src/data/meshes.rs:66-92 | The i-th mesh of each list belongs to the i-th polygon that triangulated: its vertices are that polygon's points in the list's fill, its indices the triangulation cut to whole triples. |
| CountryMeshBuilder.MeshesLockstep | src/data/meshes.rs:66-92 | The three lists stay in lockstep, one entry per triangulated polygon. |
| CountryMeshBuilder.MeshAt | src/data/meshes.rs:66-92 | Entry i of each list is the mesh of the i-th triangulated polygon, in that list's fill. |
| CountryMeshBuilder.BuildCountry | src/data/meshes.rs:31-92 | The per-polygon loop yields the country's three mesh lists. |
| CountryMeshBuilder.Build | src/data/meshes.rs:15-17 | One entry per input key, each that key's country's meshes. |
| Paint.U32 | src/data/meshes.rs:81 | `as u32` keeps the low 32 bits: the result is below 2^32 and equals the input when that fits. |
| Paint.MeshVertices | src/data/meshes.rs:71-77 | One vertex per point, at that point, all in the fill colour. |
| Paint.TriangleIndices | src/data/meshes.rs:79-85 | A multiple of three indices, at most two fewer than given, each the truncated input index. |
| Paint.CreateMesh | src/data/meshes.rs:67-88 | The closure builds the mesh of those vertices and indices. |
| Paint.PushVertices | src/data/meshes.rs:71-77 | The vertex loop builds exactly the vertex list. |
| Paint.PushTriangles | src/data/meshes.rs:79-85 | The `chunks(3)` loop pushes the whole triples and drops a short last chunk. |
| Paint.WithPolygonLockstep | src/data/meshes.rs:90-92 | Adding a polygon keeps the lists in lockstep, grows them by one exactly when triangulation succeeded and keeps the earlier entries. |
| CountryOutlines.OutlinesFollowExteriors | src/data/outlines.rs:12-28 | One line per polygon along its exterior, in order, y negated, all in one stroke. |
| CountryOutlines.OutlinesIgnoreHoles | src/data/outlines.rs:14-18 | Polygons with equal exteriors have equal outlines whatever their holes. |
| CountryOutlines.OutlinePoints | src/data/outlines.rs:16-18 | The inner loop gives one negated position per exterior coordinate. |
| CountryOutlines.CountryShapes | src/data/outlines.rs:14-26 | One country's polygon loop yields its outline list. |
| CountryOutlines.BuildCountryOutlines | src/data/outlines.rs:7-32 | Same key set as the input, each key with its country's outlines. |
| CountryPolygonTree.EntriesFor | src/data/polygon_tree.rs:13-17 | One entry per polygon of the country, with its code, enclave flag and the polygon unchanged. |
| CountryPolygonTree.TreeEntriesSound | src/data/polygon_tree.rs:7-21 | As many entries as polygons; every entry carries a country's key, its enclave flag and one of its polygons. |
| CountryPolygonTree.TreeEntriesComplete | src/data/polygon_tree.rs:12-18 | Every polygon of every visited country has its entry. |
| CountryPolygonTree.BuildCountryPolygonTree | src/data/polygon_tree.rs:7-21 | The nested loop yields the entry list handed to `bulk_load`. |
| Geometry.BoundingRect | src/data/identified_polygon.rs:49-55 | The smallest box containing every coordinate, each side touched by one of them. |
| Geometry.FromCorners | src/data/identified_polygon.rs:52-54 | The box spanned by two corners, ordered on each axis. |
| IdentifiedPolygons.IdentifiedPolygon.Envelope | src/data/identified_polygon.rs:49-55 | The bounding box of the exterior ring: ordered, containing every exterior point, each side touched. |
| GenericIdentifiedPolygons.IdentifiedPolygon.Envelope | data/src/generic/identified_polygon.rs:32-38 | The same bounding-box property for the data crate's polygon. |
| WorldData.ByRegionMembers | data/src/lib.rs:49-56 | The groups are keyed by exactly the regions that occur; a code is in a region's group exactly when some country has both. |
| WorldData.GroupByRegion | data/src/lib.rs:49-56 | The region loop yields those groups. |
| WorldData.CodesOf | data/src/lib.rs:61-64 | The code list lines up with the sorted countries. |
| WorldData.LinesCopyPoints | data/src/lib.rs:137-160 | One line per outline, its points the outline's unchanged and in order, all in one stroke. |
| WorldData.PlainPoints | data/src/lib.rs:144-146 | The inner loop copies the points without negating them. |
| WorldData.CountryOutlineShapes | data/src/lib.rs:142-154 | One country's loop yields its line list. |
| WorldData.InitializeCountryOutlines | data/src/lib.rs:137-160 | One insert per country, keyed by its code. |
| WorldData.EntriesFor | data/src/lib.rs:166-177 | One entry per outline: the outline as a polygon without holes, the code as id, the enclave flag as priority. |
| WorldData.TreeEntriesSound | data/src/lib.rs:162-181 | As many entries as outlines; every entry is a hole-less outline of some country with that country's code and flag. |
| WorldData.CopyRing | data/src/lib.rs:168-170 | The point loop copies the outline unchanged. |
| WorldData.InitializeCountryPolygonTree | data/src/lib.rs:162-181 | The nested loop yields the entry list handed to `bulk_load`. |
| WorldData.Derive | data/src/lib.rs:48-70 | The derived fields of `initialize`: the region groups, the stably sorted countries and their codes, the outline and mesh caches and the tree entries. |
| WorldData.WorldStudyData.Countries | data/src/lib.rs:50 | The countries in iteration order, one per key. |
| WorldData.WorldStudyData.Build | data/src/lib.rs:35-46 | The parsed store with every derived field empty. |
| WorldData.WorldStudyData.Initialize | data/src/lib.rs:48-70 | Afterwards every derived field is what `initialize` derives from the stored countries. |
| WorldData.WorldStudyData.GetCountryOutlines | data/src/lib.rs:91-93 | Found exactly when the code is a key of the cache, with that entry. |
| WorldData.WorldStudyData.GetCountryMeshes | data/src/lib.rs:95-97 | Found exactly when the code is a key of the cache, with that entry. |
| WorldData.GetCountryIgnoresCase | data/src/lib.rs:72-74 | `get_country` gives the same answer for a code, its lower-case and its upper-case spelling. |
| WorldData.GetCountriesSkipsUnknown | data/src/lib.rs:76-81 | `get_countries` returns at most one country per code, each one found for some code; when every code is known the result lines up with the codes. |
| WorldData.WorldStudyData.GetCountryCodeAtPoint | data/src/lib.rs:117-124 | None exactly when no candidate contains the point, otherwise the last containing candidate of maximal priority. |
| WorldData.RegionGroupsAfterInitialize | data/src/lib.rs:48-66 | `regions` is the group key set; the groups hold exactly the stored countries' codes by region; with countries stored under their codes, each code is in its own region's group only. |
| WorldData.CountryCodesEnclavesLast | data/src/lib.rs:58-64 | One code per country, from a permutation with the enclaves last that keeps each group's iteration order. |
| WorldData.CountryExistsAfterInitialize | data/src/lib.rs:109-111 | `country_exists` holds exactly for the stored countries' codes, in any letter case. |
| WorldData.PermutedCodes | data/src/lib.rs:58-64 | A code is among the sorted codes exactly when some country carries it. |
| WorldData.RegionExistsMissesStoredName | data/src/lib.rs:113-115 | As written: a stored region not in upper case is in `regions`, yet `region_exists` of that name answers false. |
| WorldData.RegionExistsIgnoringCaseAfterInitialize | data/src/lib.rs:113-115 | Corrected: a region is found exactly when a stored region matches it up to case, in any spelling. |
| WorldData.StoredCodesDistinct | data/src/generic/data_map.rs:26-29 | With every country stored under its code, no two countries in iteration order share a code. |
| WorldData.IndexedByStoreKey | data/src/lib.rs:156 | With every country stored under its code, a cache keyed by code has the store's keys, each with its own country's value. |
| WorldData.CachesAfterInitialize | data/src/lib.rs:67-68 | After `initialize`, the outline and mesh caches have one entry per stored country, its lines and its meshes. |
| WorldData.PointQueryNamesStoredCountry | data/src/lib.rs:117-124 | A query over tree entries names a stored country, and a containing enclave beats every other candidate. |
| WorldDataRecord.IndexByCodeKeys | data/src/lib.rs:156 | An insert loop keyed by code has exactly the visited codes as keys. |
| WorldDataRecord.IndexByCodeLast | data/src/country/meshes.rs:76-83 | A code maps to the value of the last country that carries it. |
| WorldDataMeshes.MeshesInLockstep | data/src/country/meshes.rs:37-83 | The three lists grow together, one entry per outline that triangulated, each mesh one vertex per point in one fill with whole triangles; earlier entries are kept. |
| WorldDataMeshes.OutlineInput | data/src/country/meshes.rs:40-44 | The points unchanged and the flat list with two coordinates per point. |
| WorldDataMeshes.BuildCountry | data/src/country/meshes.rs:37-74 | One country's loop yields its three mesh lists. |
| WorldDataMeshes.InitializeCountryMeshes | data/src/country/meshes.rs:29-87 | One insert per country, keyed by its code. |
| WorldDataCountry.IdRoundTrip | data/src/country.rs:18-24 | `id` reads the code, the one field `with_id` replaces: re-stamping a country with its own id gives it back, and the id with the other fields determines the country. |
| WorldDataCountry.WithId | data/src/country.rs:22-24 | The id becomes the given one and nothing else changes. |
| WorldDataCountry.ParseCountries | data/src/country.rs:34-52 | One entry per JSON key, stored under it, with that key as code and the names and region copied; every key names its own entity. |
| DataMaps.DataMap.New | data/src/generic/data_map.rs:20-24 | Empty: every lookup misses. |
| DataMaps.DataMap.Add | data/src/generic/data_map.rs:26-29 | The entity is stored under its own id, replacing the old one; every other id is untouched; key agreement is preserved. |
| DataMaps.DataMap.Get | data/src/generic/data_map.rs:31-33 | Found exactly when the id is a key, with that entity. |
| DataMaps.DataMap.Deserialize | data/src/generic/data_map.rs:59-71 | The entities come back under their written keys; key agreement holds exactly when it held in the input. |
| DataMaps.DeserializeKeepsForeignKey | data/src/generic/data_map.rs:59-71 | An entry written under a foreign key is found by that key and not by its id. |
| FlagNameQuiz.Increment | src/app/components/quiz/types/flag_name_country.rs:72 | `tries += 1` on a `u8`: one more below 255, wraps to 0 at 255. |
| FlagNameQuiz.FlagNameCountryQuiz.WithSettings | src/app/components/quiz/types/flag_name_country.rs:57-62 | A fresh quiz carrying the settings; the open-quiz invariant holds exactly when at least one try is allowed. |
| FlagNameQuiz.FlagNameCountryQuiz.Default | src/app/components/quiz/types/flag_name_country.rs:9-18 | A fresh quiz with default settings. |
| FlagNameQuiz.FlagNameCountryQuiz.SaveState | src/app/components/quiz/types/flag_name_country.rs:33-42 | Every field is saved. |
| FlagNameQuiz.FlagNameCountryQuiz.LoadState | src/app/components/quiz/types/flag_name_country.rs:44-53 | Saving after loading gives the state back. |
| FlagNameQuiz.FlagNameCountryQuiz.TriesLeft | src/app/components/quiz/types/flag_name_country.rs:64-66 | Tries used plus tries left is the maximum. |
| FlagNameQuiz.FlagNameCountryQuiz.Submit | src/app/components/quiz/types/flag_name_country.rs:68-80 | One more try; a right answer (ignoring case) succeeds, a wrong one fails once the tries are used up and otherwise clears the answer; an open quiz keeps a try left. |
| FlagNameQuiz.FlagNameCountryQuiz.Start | src/app/components/quiz/types/flag_name_country.rs:154-164 | Started, with a solution among the registry's codes; nothing else changes. |
| FlagNameQuiz.FlagNameCountryQuiz.Reset | src/app/components/quiz/types/flag_name_country.rs:174-180 | Everything fresh again except the settings. |
| FlagNameQuiz.FlagNameCountryQuiz.Render | src/app/components/quiz/types/flag_name_country.rs:84-152 | Nothing happens without a solution. On an open quiz a submission uses one try and then succeeds on a right answer, fails once the tries are used up and otherwise clears the answer; "Dunno" fails it. A decided quiz only shows its result. The result is `success` after the frame, and an open quiz keeps a try left. |
| LegacyFlagNameQuiz.FlagNameCountryQuiz.Default | src/app/components/quiz/flag_name_country.rs:9-15 | A fresh quiz. |
| LegacyFlagNameQuiz.FlagNameCountryQuiz.SaveState | src/app/components/quiz/flag_name_country.rs:28-35 | Every field is saved. |
| LegacyFlagNameQuiz.FlagNameCountryQuiz.LoadState | src/app/components/quiz/flag_name_country.rs:37-44 | Saving after loading gives the state back. |
| LegacyFlagNameQuiz.FlagNameCountryQuiz.Submit | src/app/components/quiz/flag_name_country.rs:48-51 | The verdict is whether the answer matches the name ignoring case; nothing else changes. |
| LegacyFlagNameQuiz.FlagNameCountryQuiz.Start | src/app/components/quiz/flag_name_country.rs:94-104 | Started, with a solution among the registry's codes. |
| LegacyFlagNameQuiz.FlagNameCountryQuiz.Reset | src/app/components/quiz/flag_name_country.rs:114-119 | Everything fresh again. |
| LegacyFlagNameQuiz.FlagNameCountryQuiz.Render | src/app/components/quiz/flag_name_country.rs:55-88 | Nothing happens without a solution; otherwise a submission judges the answer, even on a decided quiz; the result is `success` after the frame. |
| Quizzes.Quiz.SaveState | src/app/components/quiz.rs:51-55 | The wrapper saves its quiz's state. |
| Quizzes.Quiz.HasStarted | src/app/components/quiz.rs:95-99 | Dispatches to the quiz's `started`. |
| Quizzes.Quiz.IsSuccessful | src/app/components/quiz.rs:101-105 | Dispatches to the quiz's `success`. |
| Quizzes.Quiz.Reset | src/app/components/quiz.rs:107-111 | The quiz is fresh again, with its settings kept. |
| Quizzes.Quiz.Start | src/app/components/quiz.rs:87-93 | Reset, then started: open, with a solution among the registry's codes, no answer and no tries. |
| Quizzes.Quiz.Render | src/app/components/quiz.rs:67-79 | A decided quiz returns its result untouched; an unstarted one is started first; then the inner render runs and its `success` is the result. On a started open quiz a submission uses one try and then succeeds on a right answer, fails once the tries are used up and otherwise clears the answer; "Dunno" gives `Some(false)`; a started quiz keeps its try invariant. |
| Quizzes.DefaultQuiz | src/app/components/quiz.rs:31-35 | A fresh flag quiz with default settings. |
| Quizzes.LoadState | src/app/components/quiz.rs:57-63 | Saving after loading gives the state back. |
| QuizSettings.DefaultSettings | src/app/components/quiz/settings/flag_name_country.rs:13-17 | One try, within the slider's range. |
| QuizCreation.CreateQuiz | src/app/components/quiz/settings/flag_name_country.rs:27-29 | A fresh quiz carrying the settings; settings within the slider's range give an open quiz a try. |
| WorldMap.HoverTarget | src/app/components/world_map.rs:88-105 | At most one of country and capital is hovered: a country polygon hovers its id as country, a capital polygon as capital, nothing hovers nothing. |
| WorldMap.Toggle | src/app/components/world_map.rs:109-131 | A click selects the hovered item unless it was selected already; with nothing hovered it clears the selection. |
| WorldMap.ToggleTwice | src/app/components/world_map.rs:109-131 | Two clicks on the same item restore selecting it exactly when it was selected. |
| WorldMap.ClickSelectsAtMostOne | src/app/components/world_map.rs:109-131 | While at most one is hovered, a click leaves at most one of country and capital selected. |
| WorldMap.VariantOf | src/app/components/world_map.rs:159-165 | Selection beats hovering, and neither gives the default meshes. |
| WorldMap.Pieces | src/app/components/world_map.rs:133-143 | One piece per code, drawn with that code's selection and hover flags. |
| WorldMap.PaintedPieces | src/app/components/world_map.rs:133-143 | The frame is the countries' pieces one after another, in code order. |
| WorldMap.DrawCountryStartsWithVariant | src/app/components/world_map.rs:158-176 | A country with meshes is drawn starting with the chosen variant's meshes. |
| WorldMap.SelectedCountryDrawnSelected | src/app/components/world_map.rs:133-176 | The i-th country's chosen meshes appear as one run where the earlier pieces end. |
| WorldMap.WorldMapState.Default | src/app/components/world_map.rs:22-33 | The rectangle from (-180, -180) to (180, 180), nothing hovered, selected or pointed at. |
| WorldMap.WorldMapState.SaveState | src/app/components/world_map.rs:48-57 | The corners and both selections are saved. |
| WorldMap.WorldMapState.LoadState | src/app/components/world_map.rs:59-71 | Saving after loading gives the state back; hover and cursor start empty. |
| WorldMap.WorldMapState.UpdateHover | src/app/components/world_map.rs:85-107 | While hovered with a position, the position is kept and the hover is the polygon's at (x, -y); otherwise nothing changes; at most one stays hovered. |
| WorldMap.WorldMapState.UpdateSelection | src/app/components/world_map.rs:109-131 | A click toggles both selections against the hover; without a click nothing changes. |
| WorldMap.WorldMapState.PaintCountries | src/app/components/world_map.rs:133-143 | The loop paints the countries in code order. |
| WorldMap.WorldMapState.Draw | src/app/components/world_map.rs:75-145 | The frame: the viewport, then the hover step, the click step and the painting, with their contracts combined. |
| Explore.ExploreState.Default | src/app/views/explore.rs:23-31 | A default map; only the details window open. |
| Explore.ExploreState.OpenWindows | src/app/views/explore.rs:82-92 | Each auxiliary window is shown exactly when its flag is set. |
| Explore.ExploreState.SaveState | src/app/views/explore.rs:45-52 | The map's persisted state and the three flags. |
| Explore.ExploreState.LoadState | src/app/views/explore.rs:54-61 | Saving after loading gives the state back, with a fresh map. |
| QuizMenu.QuizMenuState.Default | src/app/views/quiz_menu.rs:9-13 | Default settings, quiz disabled. |
| QuizMenu.QuizMenuState.BuildQuizzes | src/app/views/quiz_menu.rs:17-23 | One fresh quiz with the menu's settings when enabled, none otherwise. |
| QuizMenu.QuizMenuState.SaveState | src/app/views/quiz_menu.rs:39-44 | Settings and flag saved. |
| QuizMenu.QuizMenuState.LoadState | src/app/views/quiz_menu.rs:46-51 | Saving after loading gives the state back. |
| QuizRun.SaveAll | src/app/views/quiz_run.rs:50 | One saved state per quiz, in order. |
| QuizRun.LoadAll | src/app/views/quiz_run.rs:58 | One fresh, separate quiz per state, saving back to the states. |
| QuizRun.QuizRunState.Default | src/app/views/quiz_run.rs:9-14 | No quizzes, nothing collected, index 0. |
| QuizRun.QuizRunState.SaveState | src/app/views/quiz_run.rs:48-54 | The quizzes' states, the flag and the index. |
| QuizRun.QuizRunState.LoadState | src/app/views/quiz_run.rs:56-62 | Saving after loading gives the state back; the index is not checked. |
| QuizRun.QuizRunState.GetActiveQuiz | src/app/views/quiz_run.rs:28-30 | The quiz at the active index. |
| QuizRun.QuizRunState.RestartActiveQuiz | src/app/views/quiz_run.rs:32-35 | The flag is cleared and the active quiz is started afresh; the list and the index are kept. |
| QuizRun.QuizRunState.RandomizeQuiz | src/app/views/quiz_run.rs:22-26 | Some index in range becomes active and its quiz restarts; every other quiz is untouched. |
| QuizRun.QuizRunState.LoadQuizzes | src/app/views/quiz_run.rs:17-20 | The list is replaced and a random quiz of it started. |
| App.LoadExplore | src/app.rs:79 | A fresh explore state that saves back to the given state. |
| App.LoadQuizRun | src/app.rs:81 | A fresh quiz run state that saves back to the given state. |
| App.WorldStudyApp.Default | src/app.rs:20-31 | The main menu, an empty history and default view states. |
| App.WorldStudyApp.SwitchView | src/app.rs:42-44 | The target becomes current; the history is kept. |
| App.WorldStudyApp.LogQuizStats | src/app.rs:46-48 | The stats go to the end of the history; the view is kept. |
| App.WorldStudyApp.SaveState | src/app.rs:63-71 | The view, history and the three persisted view states. |
| App.WorldStudyApp.LoadState | src/app.rs:73-83 | Saving after loading gives the state back; the study menu gets a fresh default map: default scene rect, nothing selected or hovered, no cursor. |
| App.WorldStudyApp.StartQuizzes | src/app/views/quiz_menu.rs:78-82 | The Start button: a one-quiz run with the menu's settings, started, and the run view current. |
| App.WorldStudyApp.QuizRunFrame | src/app/views/quiz_run.rs:65-90 | Back switches to the menu; a decided quiz logs its stats once; Next clears the collected flag and restarts a random quiz: it is open and started, with a solution from the codes, no answer, no tries and its settings kept, and every other quiz is unchanged. |
| CountryDataTool.AreaAsU32 | tools/bin/generate_country_data.rs:34 | `as u32` on a float: rounds toward zero and saturates at 0 and `u32::MAX`. |
| CountryDataTool.ToJson | tools/bin/generate_country_data.rs:24-38 | The record copies the fields; its enclave flag holds exactly when the code is listed, and its capitals are the code's or else none. |
| CountryDataTool.MergedKeys | tools/bin/generate_country_data.rs:22-41 | One output entry per distinct input code and no other. |
| CountryDataTool.MergedLastWins | tools/bin/generate_country_data.rs:40 | A code's entry is built from the last input entry with that code. |
| CountryDataTool.MergeCountries | tools/bin/generate_country_data.rs:22-41 | The loop yields the merged map. |

## Left out

- The GUI. Painting, the scene's pan and zoom, windows, buttons and key
  presses are egui's. Their outcomes are method parameters, such as the
  hover flag, the cursor, clicks, the quiz `Action` and the Next button.
- File I/O and serialisation: `persist_state`/`restore_state`, the JSON
  reading of `parse_countries` and of the tool, and the bincode build step.
  `DataMap`'s `serialize` is left out because it is a plain serde
  transcription. Its `deserialize` is modelled on the decoded map.
- The `Lazy` global registry behind `get_data()`. The registry is a
  parameter.
- Floating point. Coordinates are `real`. `f32`/`f64` rounding and the
  `as f64` casts are not modelled. The area cast models finite values
  only, not NaN or infinities.
- Library geometry (`scale`, `simplify_vw`, earcut, point-in-polygon) is
  passed in as function parameters. The R-tree layout is left out too: the
  point query takes the candidates the tree yields as a parameter.
- `distance_2` of both polygon types, which R-tree nearest-neighbour
  queries would use. The core does not call it.
- Capitals: drawing the capital markers and `get_country_capitals`.
  Capital polygons are covered in the hover logic only.
- Flag images: `get_country_flag_image` and
  `initialize_country_flag_images`, which is unused. The image bytes are
  never inspected.
- `countries_iter`, `get_country_codes` and `get_regions` are plain field
  getters. They are the fields themselves in the model.
- The output order of the tool's `BTreeMap` is left out. The merged map is
  unordered.
- Case mapping is ASCII only. Rust's Unicode `to_uppercase`/`to_lowercase`
  can change the length of a string.
- Randomness. `random_range` and `choose` become a non-deterministic
  choice of an index or a code.
- `update` is left out: it only dispatches on the current view to each
  view's `render`. The main menu and study menu views are modelled only as
  states.
- `render_settings` of the older quiz is `todo!()`.
- The quiz's `render` takes one action per frame. The source submits
  twice in a frame with both Enter and Submit; the model takes one
  submission per frame. A frame with Enter, or Submit, plus a "Dunno"
  click submits and then fails the quiz in the source; the model does not
  combine them.
- WorldData.EntriesFor keeps each outline as it is. The source builds the
  polygon with geo's `Polygon::new` (data/src/lib.rs:173), which closes an
  open exterior ring by appending its first point. The envelope is the
  same either way, and containment is a parameter of the point query.
- FlagNameQuiz.FlagNameCountryQuiz.Render does not model the text edit.
  What the player types reaches `answer` as a field assignment made before
  the frame, so a frame without an action leaves the quiz unchanged.
- FlagNameQuiz.FlagNameCountryQuiz.Render does not model the `get_country`
  unwrap in the "failed" display (flag_name_country.rs:144): a failed quiz
  whose solution is unknown panics in the source. The `Quiz` wrapper
  returns before the inner render for a decided quiz, so no caller in the
  model reaches it.
- Quiz statistics: timestamps are `nat`, not `u128`.
- FlagNameQuiz.Increment models a release build, where the `u8`
  `tries += 1` wraps at 255; a debug build panics there instead. The
  wrap never happens while the try invariant holds: `Submit`'s last
  ensures shows that an open quiz's tries go up by exactly one.
- IdentifiedPolygons.IdentifiedPolygon.Envelope requires a non-empty
  exterior, because the source unwraps `bounding_rect()`.
- GenericIdentifiedPolygons.IdentifiedPolygon.Envelope has the same
  requirement, for the same reason.
- FlagNameQuiz.FlagNameCountryQuiz.TriesLeft requires `tries <= max_tries`,
  because the `u8` subtraction underflows otherwise.
- FlagNameQuiz.FlagNameCountryQuiz.Submit requires the code to be known,
  because the source unwraps `get_country`.
- LegacyFlagNameQuiz.FlagNameCountryQuiz.Submit has the same requirement.
- FlagNameQuiz.FlagNameCountryQuiz.Start requires a non-empty code list,
  because the source unwraps `choose`.
  - The same requirement holds for `LegacyFlagNameQuiz.FlagNameCountryQuiz.Start`,
    `Quizzes.Quiz.Start` and `QuizRun.QuizRunState.RestartActiveQuiz`.
- QuizRun.QuizRunState.RandomizeQuiz requires a non-empty quiz list,
  because `random_range(0..0)` panics.
- QuizRun.QuizRunState.GetActiveQuiz requires the index in range, because
  the source indexes the vector.
- App.WorldStudyApp.QuizRunFrame takes the active quiz's render outcome and
  its statistics as parameters. It does not render the quiz itself, and
  `collect_stats` is not defined in this snapshot.

## Findings

| source | as written | input that shows it | evidently intended | confidence | as-written member | corrected member |
|---|---|---|---|---|---|---|
| data/src/lib.rs:113-115 | `region_exists` upper-cases the name it is asked for and looks it up in `regions`. `regions` holds the region names as stored (lib.rs:66), which are not upper-cased. | A registry whose only country has region "Europe": `region_exists("Europe")` is false, though "Europe" is in `get_regions()`. | A lookup that ignores case on both sides, as `country_exists` does for the upper-cased codes it stores. | medium, not executed | WorldData.RegionExistsMissesStoredName | WorldData.RegionExistsIgnoringCaseAfterInitialize |
