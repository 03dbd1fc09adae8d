# Haiku Core Modding API — a Dafny model of its pure core

Haiku Core Modding API is a BepInEx plugin for the game *Haiku, the Robot*. It
shows an on-screen list of the loaded mods, exposes a resolution setting, and
ships a small helper library for building Unity UI. Most of it drives the
engine, but three parts are plain sequential logic. This project models those
three parts and proves properties of them:

- **The loaded-plugin overlay** (`MapiPlugin`, `mapi_plugin.dfy`). `Start` folds
  the loader's plugin registry into a list of `"name: version"` entries. When
  the API's own plugin ("Haiku Core Modding API") arrives and the list is
  already non-empty, the loop appends the current first entry to the end and
  overwrites slot 0 with the API's entry. The model proves that this is a
  permutation: nothing is duplicated or lost. With a single API entry at
  position `k`, the net effect is to exchange positions 0 and `k`. A second
  loop lays out one text row per entry, `5 * i` units down. Before any of
  this, `Start` applies the stored resolution setting. When that lookup fails,
  `Start` stops and no overlay is built.
- **The resolution setting** (`Settings`, `settings.dfy`). This is the
  twelve-member resolution enum with its `Description` labels, the table of
  pixel pairs, the lookup `GetRes` by underlying value, and the default `Res1920x1080`. The
  `(int)` truncation applied when a resolution is set is modelled too. So are
  the start-up application and the change handler, which acts only on the
  `("MApi", "Resolution")` entry.
- **The rectangle descriptor and UI builders** (`CanvasUtil`, `canvas_util.dfy`).
  This covers the three `RectData` constructors with their `(0.5, 0.5)`
  defaults and the field-for-field copy into a rect transform. It also covers
  the anchor/size/pivot arithmetic that the source comments describe, with
  their worked examples. Finally it includes the panel, text, image and button
  builders, including the choice between sprite swapping and no transition.

`wrappers.dfy` holds `Option`/`Result`. `geometry.dfy` holds `Vec2`/`Vec3`
over `real`, which stand in for the engine's float vectors.

On the plugin list, the code does not duplicate the API's entry. At
`MapiPlugin.cs:37-38` the loop appends the old slot-0 entry to the end and only
then overwrites slot 0, so every plugin keeps exactly one entry.
`SingleSelfSwapsWithFirst` and `CollectEntriesIsPermutation` prove the
permutation. The displaced first entry is the last entry only at the moment
of the swap. Plugins enumerated later are appended after it, so it ends up at
the API's enumeration position.

The resolution enum is open, as C# enums are: the stored or notified value is
modelled by its underlying integer, which a configuration file can set to a
number outside the twelve declared members. The table lookup then indexes
outside the table, and the model returns `IndexOutOfRange` from `GetRes`,
`InitSettings` and `OnSettingChanged` where the code throws.

The layout rule is the engine's: `anchoredPosition` is measured from the anchor
span taken at the pivot fraction (`AxisPivot`). The source comment at
`CanvasUtil.cs:54-57` describes it as an offset from the centre of the
anchors. The two agree when the pivot is centred or the anchors
coincide, which covers both of the comment's worked examples
(`PivotAtAnchorCentre`). Otherwise they differ (`PivotOffCentreDiffers`).

## Model

| member | source | states |
|---|---|---|
| `MapiPlugin.IsSelf` | Haiku.CoreModdingApi/MapiPlugin.cs:34 | a plugin is the API itself when its name is exactly "Haiku Core Modding API" |
| `MapiPlugin.Entry` | Haiku.CoreModdingApi/MapiPlugin.cs:38-42 | an entry is the plugin name, then `": "`, then the version, and has exactly that length |
| `MapiPlugin.AddEntry` | Haiku.CoreModdingApi/MapiPlugin.cs:34-43 | one loop step adds exactly one entry. For the API arriving at a non-empty list, the API's entry goes to slot 0, the old slot-0 entry goes to the end and the middle is untouched. Otherwise it is a plain append |
| `MapiPlugin.CollectEntries` | Haiku.CoreModdingApi/MapiPlugin.cs:30-44 | the output has exactly one entry per enumerated plugin |
| `MapiPlugin.AddEntryMultiset` | Haiku.CoreModdingApi/MapiPlugin.cs:34-43 | one loop step adds exactly the new plugin's entry to the multiset of entries and loses none |
| `MapiPlugin.CollectEntriesIsPermutation` | Haiku.CoreModdingApi/MapiPlugin.cs:30-44 | the output is a permutation of the formatted plugins: nothing duplicated, nothing dropped |
| `MapiPlugin.AddEntryIsAppendThenSwap` | Haiku.CoreModdingApi/MapiPlugin.cs:34-43 | the reordering step equals "append, then exchange the first and the new last entry" |
| `MapiPlugin.NoSelfKeepsOrder` | Haiku.CoreModdingApi/MapiPlugin.cs:40-43 | without the API in the registry, the list is the formatted plugins in enumeration order |
| `MapiPlugin.SingleSelfSwapsWithFirst` | Haiku.CoreModdingApi/MapiPlugin.cs:30-44 | with the API enumerated once, at position `k`, the final list is the formatted plugins with positions 0 and `k` exchanged. For `k = 0` (API first) it is unchanged |
| `MapiPlugin.SelfAndFirstExchanged` | Haiku.CoreModdingApi/MapiPlugin.cs:34-38 | with the API enumerated once, at position `k`, its entry is first and the first plugin's entry takes position `k` |
| `MapiPlugin.OthersKeepTheirPosition` | Haiku.CoreModdingApi/MapiPlugin.cs:37-42 | with the API enumerated once, every entry other than the API's and the displaced first one keeps its enumeration position |
| `MapiPlugin.FrontIsLastSelfSeen` | Haiku.CoreModdingApi/MapiPlugin.cs:34-42 | once the API has been enumerated, the first entry is the API's entry from its last enumeration, whatever else the registry holds |
| `MapiPlugin.EmptyRegistryEmptyList` | Haiku.CoreModdingApi/MapiPlugin.cs:45-48 | the list is empty exactly when the registry is |
| `MapiPlugin.EntriesAreExactlyThePlugins` | Haiku.CoreModdingApi/MapiPlugin.cs:37-42 | a string is in the list if and only if it is the entry of some enumerated plugin |
| `MapiPlugin.CollectPlugins` | Haiku.CoreModdingApi/MapiPlugin.cs:15-44 | the registry loop computes the fold `CollectEntries`: one entry per enumerated plugin, in the order the fold gives |
| `MapiPlugin.LayoutRows` | Haiku.CoreModdingApi/MapiPlugin.cs:71-87 | one bold, size-4 row per entry, showing and named by that entry, sized (400, 10), at local y = `-5*i`. Rows are evenly spaced 5 apart and strictly decreasing in y |
| `MapiPlugin.Start` | Haiku.CoreModdingApi/MapiPlugin.cs:13-87 | start-up first applies the stored resolution. It fails, with no overlay, exactly when a stored value lies outside the declared members, and the display is then the one `InitSettings` leaves. Otherwise the overlay holds the entries of the fold `CollectEntries`, the "Couldn't find plugins" branch is taken exactly when the registry is empty, and there is one bold, size-4, (400, 10) row per plugin showing and named by its entry at y = `-5*i`, under a container at (10, 103, 0) |
| `Settings.Description` | Haiku.CoreModdingApi/Settings.cs:22-47 | the `Description` label of each member, as written on the enum |
| `Settings.Ordinal` | Haiku.CoreModdingApi/Settings.cs:22-47 | every enum member's underlying value is below 12 |
| `Settings.FromOrdinal` | Haiku.CoreModdingApi/Settings.cs:22-47 | each value 0..11 is the underlying value of an enum member |
| `Settings.GetRes` | Haiku.CoreModdingApi/Settings.cs:49-68 | the lookup by underlying value succeeds exactly for the 12 declared members' values 0..11 and otherwise fails with `IndexOutOfRange`. Every pair found is positive and whole |
| `Settings.TableMatchesLabels` | Haiku.CoreModdingApi/Settings.cs:22-63 | each table entry is the width x height written in the `Description` label of the member at the same index |
| `Settings.TableStrictlyIncreasing` | Haiku.CoreModdingApi/Settings.cs:51-62 | width and height both increase strictly with the enum's underlying value |
| `Settings.GetResDefault` | Haiku.CoreModdingApi/Settings.cs:13 | the default member `Res1920x1080` has underlying value 8, and the lookup gives (1920, 1080) |
| `Settings.TruncToInt` | Haiku.CoreModdingApi/Settings.cs:81 | the `(int)` cast truncates toward zero |
| `Settings.ChangeResolution` | Haiku.CoreModdingApi/Settings.cs:79-82 | the applied size is the truncated pair, and the full-screen mode is kept |
| `Settings.ApplyIsExact` | Haiku.CoreModdingApi/Settings.cs:79-82 | for every pair the lookup finds, the truncation is exact: the display gets exactly the table's pixel pair |
| `Settings.ApplyRaw` | Haiku.CoreModdingApi/Settings.cs:65-82 | applying an underlying value succeeds exactly for 0..11, keeps the full-screen mode and sets the size written in that member's label; any other value fails with `IndexOutOfRange` |
| `Settings.InitSettings` | Haiku.CoreModdingApi/Settings.cs:11-20 | start-up applies (1920, 1080) when nothing is stored. A stored value is applied with the size in its member's label when it is one of 0..11, and fails with `IndexOutOfRange` otherwise. The full-screen mode is kept |
| `Settings.OnSettingChanged` | Haiku.CoreModdingApi/Settings.cs:70-77 | a change to any entry other than ("MApi", "Resolution") leaves the display unchanged. A change to that entry applies the size named in the new member's label. It fails with `IndexOutOfRange` for an underlying value outside 0..11, and with `InvalidCast` if the boxed value is not of the enum type |
| `Settings.OnSettingChangedIdempotent` | Haiku.CoreModdingApi/Settings.cs:70-82 | delivering the same change notification twice leaves the display as delivering it once |
| `CanvasUtil.NewRectData` | Haiku.CoreModdingApi/CanvasUtil.cs:245-249 | the two-argument constructor keeps size delta and position and sets min, max and pivot to (0.5, 0.5) |
| `CanvasUtil.NewRectDataWithAnchors` | Haiku.CoreModdingApi/CanvasUtil.cs:281-284 | the four-argument constructor keeps its arguments and sets the pivot to (0.5, 0.5) |
| `CanvasUtil.NewRectDataWithPivot` | Haiku.CoreModdingApi/CanvasUtil.cs:315-322 | the five-argument constructor stores each argument in its matching field |
| `CanvasUtil.ConstructorsAgree` | Haiku.CoreModdingApi/CanvasUtil.cs:245-284 | the shorter constructors are the longer ones with centre defaults filled in |
| `CanvasUtil.AddRectTransform` | Haiku.CoreModdingApi/CanvasUtil.cs:79-84 | the copy is AnchorMax to anchorMax, AnchorMin to anchorMin, AnchorPivot to pivot, RectSizeDelta to sizeDelta and AnchorPosition to anchoredPosition. Nothing else of the node changes |
| `CanvasUtil.AddRectTransformRoundTrip` | Haiku.CoreModdingApi/CanvasUtil.cs:79-84 | the descriptor can be read back unchanged from the transform it was copied into |
| `CanvasUtil.CreateBasePanel` | Haiku.CoreModdingApi/CanvasUtil.cs:19-31 | parent and unit local scale are set only when a parent is given. The panel gets a canvas renderer and the descriptor's transform, and nothing else |
| `CanvasUtil.CreateTextPanel` | Haiku.CoreModdingApi/CanvasUtil.cs:117-130 | a base panel plus a rich-text component with the given font, text, size and alignment |
| `CanvasUtil.CreateImagePanel` | Haiku.CoreModdingApi/CanvasUtil.cs:139-147 | a base panel plus an image of the given sprite with preserved aspect |
| `CanvasUtil.CreateButton` | Haiku.CoreModdingApi/CanvasUtil.cs:166-199 | a base panel with image and button, whose click calls `action(id)`, and a text panel under it with the same descriptor. Sprite swap with highlighted/pressed/disabled = extra sprites 0/1/2 is used exactly when three extra sprites are given. Otherwise there is no transition and no sprite state |
| `CanvasUtil.AxisSize` | Haiku.CoreModdingApi/CanvasUtil.cs:45-52 | the size on one axis is the anchors' share of the parent plus the delta: just the delta when the anchors coincide, the parent plus the delta when they span 0 to 1 |
| `CanvasUtil.AxisPivot` | Haiku.CoreModdingApi/CanvasUtil.cs:54-57 | the pivot on one axis is the anchor span at the pivot fraction plus the offset; with coinciding anchors it is the anchor on the parent plus the offset, whatever the pivot |
| `CanvasUtil.EffectiveSize` | Haiku.CoreModdingApi/CanvasUtil.cs:45-52 | the size on both axes; on an axis whose anchors coincide it is that axis's `sizeDelta` |
| `CanvasUtil.PivotPoint` | Haiku.CoreModdingApi/CanvasUtil.cs:54-57 | the pivot position on both axes; on an axis whose anchors coincide it is the anchor on the parent plus `anchoredPosition` |
| `CanvasUtil.CornersFromAnchors` | Haiku.CoreModdingApi/CanvasUtil.cs:54-77 | the corners computed from size, anchor point and pivot are also each anchor on the parent plus `anchoredPosition` and the pivot's share of `sizeDelta` |
| `CanvasUtil.StretchedSize` | Haiku.CoreModdingApi/CanvasUtil.cs:45-52 | anchors (0,0)-(1,1) give size = parent size + sizeDelta |
| `CanvasUtil.PointAnchorSize` | Haiku.CoreModdingApi/CanvasUtil.cs:45-46 | equal anchors give size = sizeDelta, whatever the parent |
| `CanvasUtil.StretchedWidthExamples` | Haiku.CoreModdingApi/CanvasUtil.cs:45-51 | stretched horizontally on a 1920-wide parent, sizeDelta.x = -1820 gives width 100 and 0 gives 1920 |
| `CanvasUtil.CentredOffsetExample` | Haiku.CoreModdingApi/CanvasUtil.cs:54-57 | centre anchors on 1920x1080 with offset (100, 100) place the pivot at (1060, 640) |
| `CanvasUtil.PivotAtAnchorCentre` | Haiku.CoreModdingApi/CanvasUtil.cs:54-57 | with a centred pivot or coincident anchors, the pivot sits at the centre of the anchors on the parent plus `anchoredPosition`, as the comment describes |
| `CanvasUtil.PivotOffCentreDiffers` | Haiku.CoreModdingApi/CanvasUtil.cs:54-57 | with anchors (0,0)-(1,1), pivot 0 and a 100-unit parent, the pivot sits at 0 and not at the centre reading's 50 |
| `CanvasUtil.PivotCornerExample` | Haiku.CoreModdingApi/CanvasUtil.cs:76-77 | for a point-anchored 100x100 square, pivot (1, 1) puts the upper-right corner on the anchored point. This moves the square by (-50, -50) from the centre-pivot placement |

## Left out

- Engine scene construction is not modelled: `new GameObject`, `AddComponent`, `Destroy`, `DontDestroyOnLoad` and the overlay canvas with its scaler settings (`MapiPlugin.cs:50-65`). A node is only the record of the fields the helpers set. Object identities (nodes, fonts, sprites, click actions) are caller-supplied numbers.
- `CanvasUtil.CreateCanvas` (`CanvasUtil.cs:92-105`) is left out. It only creates and configures engine components.
- Removing the Steam name display and borrowing its font (`MapiPlugin.cs:17-20`) is left out. It is a scene lookup with no logic.
- The achievement hook (`MapiPlugin.cs:23`, `91-94`) is left out. It is runtime method patching whose body only logs.
- Logging is left out.
- `Screen.SetResolution` is modelled as a change to a `Screen` record, not as a call to the engine.
- BepInEx `Bind`/`TryGetEntry` are reduced to "the stored value, else the default". `TryGetEntry` right after `Bind` always finds the entry. `SaveOnConfigSet` and event subscription are host I/O.
- `ConfigManagerUtil.cs` is not part of this model. It is configuration-UI drawing and process launching over libraries that are not shown.
- Float `Vector2`/`Vector3` arithmetic is modelled over `real`. Every table value is a small integer, so the float rounding does not change the applied pixel pair.
- The version text is taken as given. `System.Version`'s own rendering is not modelled.
- The registry's enumeration order (a dictionary's) is not modelled. It is the order of the input sequence.
- `MapiPlugin.LayoutRows`: the row's font (the borrowed game font) is not recorded.
- `Settings.OnSettingChanged`: the ("MApi", "Resolution") entry is typed, so its notifications carry enum values. The model does not tie value types to definitions, so a non-enum value (`BoxedOther`) on that key fails with `InvalidCast`, as the C# unboxing cast would.
