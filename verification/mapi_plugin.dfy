/** The loaded-plugin overlay built by the plugin's `Start` hook: the list of
    "name: version" entries gathered from the loader's plugin registry, with the
    API's own entry brought to the front, and one text row per entry. */
module MapiPlugin {
  import opened Geometry
  import opened Wrappers
  import Settings

  /** The two metadata fields of a registry entry that the overlay reads.
      `version` is the version as the loader already renders it to text. */
  datatype PluginMetadata = PluginMetadata(name: string, version: string)

  /** The display name under which this plugin registers itself. */
  const SelfName: string := "Haiku Core Modding API"

  predicate IsSelf(p: PluginMetadata) {
    p.name == SelfName
  }

  /** The overlay text for one plugin: its name, a colon and a space, its version. */
  function Entry(p: PluginMetadata): (e: string)
    ensures |e| == |p.name| + 2 + |p.version|
    ensures e[..|p.name|] == p.name
    ensures e[|p.name|..|p.name| + 2] == ": "
    ensures e[|p.name| + 2..] == p.version
  {
    p.name + ": " + p.version
  }

  /** Reference ordering: one entry per plugin, in enumeration order. */
  function Formatted(ps: seq<PluginMetadata>): (r: seq<string>)
    ensures |r| == |ps|
    ensures forall i :: 0 <= i < |ps| ==> r[i] == Entry(ps[i])
  {
    seq(|ps|, i requires 0 <= i < |ps| => Entry(ps[i]))
  }

  lemma FormattedSnoc(ps: seq<PluginMetadata>)
    requires |ps| > 0
    ensures Formatted(ps) == Formatted(ps[..|ps| - 1]) + [Entry(ps[|ps| - 1])]
  {
  }

  /** `s` with the elements at `i` and `j` exchanged. */
  function Swap<T>(s: seq<T>, i: nat, j: nat): (r: seq<T>)
    requires i < |s| && j < |s|
    ensures |r| == |s|
    ensures r[i] == s[j] && r[j] == s[i]
    ensures forall k :: 0 <= k < |s| && k != i && k != j ==> r[k] == s[k]
  {
    s[i := s[j]][j := s[i]]
  }

  /** One iteration of the registry loop. When the API itself arrives and the
      list already holds something, the current first entry is appended to the
      end and the first slot is overwritten with the API's entry; otherwise the
      entry is appended. */
  function AddEntry(acc: seq<string>, p: PluginMetadata): (r: seq<string>)
    ensures |r| == |acc| + 1
    ensures IsSelf(p) && |acc| > 0 ==>
              r[0] == Entry(p) && r[|acc|] == acc[0] && r[1..|acc|] == acc[1..]
    ensures !(IsSelf(p) && |acc| > 0) ==> r[..|acc|] == acc && r[|acc|] == Entry(p)
  {
    if IsSelf(p) && |acc| > 0 then
      (acc + [acc[0]])[0 := Entry(p)]
    else
      acc + [Entry(p)]
  }

  /** The entry list after the registry loop has seen every plugin of `ps`. */
  function CollectEntries(ps: seq<PluginMetadata>): (r: seq<string>)
    ensures |r| == |ps|
    decreases |ps|
  {
    if |ps| == 0 then
      []
    else
      AddEntry(CollectEntries(ps[..|ps| - 1]), ps[|ps| - 1])
  }

  /** A loop step adds exactly the new plugin's entry and loses nothing. */
  lemma AddEntryMultiset(acc: seq<string>, p: PluginMetadata)
    ensures multiset(AddEntry(acc, p)) == multiset(acc) + multiset{Entry(p)}
  {
    if IsSelf(p) && |acc| > 0 {
      assert acc == [acc[0]] + acc[1..];
      assert AddEntry(acc, p) == [Entry(p)] + acc[1..] + [acc[0]];
    }
  }

  /** The list is a permutation of the formatted plugins: no entry is
      duplicated and none is dropped. */
  lemma {:induction false} CollectEntriesIsPermutation(ps: seq<PluginMetadata>)
    ensures multiset(CollectEntries(ps)) == multiset(Formatted(ps))
  {
    if |ps| > 0 {
      var init, last := ps[..|ps| - 1], ps[|ps| - 1];
      CollectEntriesIsPermutation(init);
      AddEntryMultiset(CollectEntries(init), last);
      FormattedSnoc(ps);
    }
  }

  /** A loop step is "append, then exchange the first and the new last entry"
      when the API arrives at a non-empty list, and a plain append otherwise. */
  lemma AddEntryIsAppendThenSwap(acc: seq<string>, p: PluginMetadata)
    ensures IsSelf(p) && |acc| > 0 ==> AddEntry(acc, p) == Swap(acc + [Entry(p)], 0, |acc|)
    ensures !(IsSelf(p) && |acc| > 0) ==> AddEntry(acc, p) == acc + [Entry(p)]
  {
    if IsSelf(p) && |acc| > 0 {
      var r, s := AddEntry(acc, p), Swap(acc + [Entry(p)], 0, |acc|);
      assert forall k :: 0 <= k < |r| ==> r[k] == s[k];
    }
  }

  /** Without the API in the registry the list is the entries in enumeration order. */
  lemma {:induction false} NoSelfKeepsOrder(ps: seq<PluginMetadata>)
    requires forall i :: 0 <= i < |ps| ==> !IsSelf(ps[i])
    ensures CollectEntries(ps) == Formatted(ps)
  {
    if |ps| > 0 {
      NoSelfKeepsOrder(ps[..|ps| - 1]);
      FormattedSnoc(ps);
    }
  }

  lemma SwapSnoc<T>(s: seq<T>, i: nat, j: nat, x: T)
    requires i < |s| && j < |s|
    ensures Swap(s, i, j) + [x] == Swap(s + [x], i, j)
  {
    var a, b := Swap(s, i, j) + [x], Swap(s + [x], i, j);
    assert forall k :: 0 <= k < |a| ==> a[k] == b[k];
  }

  /** The step that brings the API's entry to the front, after a prefix
      without the API. */
  lemma SelfArrivesLast(ps: seq<PluginMetadata>)
    requires |ps| > 0 && IsSelf(ps[|ps| - 1])
    requires CollectEntries(ps[..|ps| - 1]) == Formatted(ps[..|ps| - 1])
    ensures CollectEntries(ps) == Swap(Formatted(ps), 0, |ps| - 1)
  {
    var init, last := ps[..|ps| - 1], ps[|ps| - 1];
    FormattedSnoc(ps);
    if |init| == 0 {
      assert Swap(Formatted(ps), 0, 0) == Formatted(ps);
    } else {
      AddEntryIsAppendThenSwap(Formatted(init), last);
    }
  }

  /** A step that appends a plugin other than the API keeps an earlier
      exchange in place. */
  lemma OtherArrivesAfterSwap(ps: seq<PluginMetadata>, k: nat)
    requires k < |ps| - 1 && !IsSelf(ps[|ps| - 1])
    requires CollectEntries(ps[..|ps| - 1]) == Swap(Formatted(ps[..|ps| - 1]), 0, k)
    ensures CollectEntries(ps) == Swap(Formatted(ps), 0, k)
  {
    var init, last := ps[..|ps| - 1], ps[|ps| - 1];
    FormattedSnoc(ps);
    AddEntryIsAppendThenSwap(CollectEntries(init), last);
    SwapSnoc(Formatted(init), 0, k, Entry(last));
  }

  /** With the API enumerated exactly once, at position `k`, the net effect of
      the loop is to exchange the entries at positions 0 and `k`. */
  lemma {:induction false} SingleSelfSwapsWithFirst(ps: seq<PluginMetadata>, k: nat)
    requires k < |ps| && IsSelf(ps[k])
    requires forall i :: 0 <= i < |ps| && i != k ==> !IsSelf(ps[i])
    ensures CollectEntries(ps) == Swap(Formatted(ps), 0, k)
  {
    var init := ps[..|ps| - 1];
    if k == |ps| - 1 {
      NoSelfKeepsOrder(init);
      SelfArrivesLast(ps);
    } else {
      SingleSelfSwapsWithFirst(init, k);
      OtherArrivesAfterSwap(ps, k);
    }
  }

  /** The same exchange, position by position: the API's entry comes first,
      and the displaced first entry takes the API's enumeration position ... */
  lemma SelfAndFirstExchanged(ps: seq<PluginMetadata>, k: nat)
    requires k < |ps| && IsSelf(ps[k])
    requires forall i :: 0 <= i < |ps| && i != k ==> !IsSelf(ps[i])
    ensures CollectEntries(ps)[0] == Entry(ps[k])
    ensures CollectEntries(ps)[k] == Entry(ps[0])
  {
    SingleSelfSwapsWithFirst(ps, k);
  }

  /** ... and every entry other than those two keeps its enumeration position. */
  lemma OthersKeepTheirPosition(ps: seq<PluginMetadata>, k: nat, i: nat)
    requires k < |ps| && IsSelf(ps[k])
    requires forall j :: 0 <= j < |ps| && j != k ==> !IsSelf(ps[j])
    requires 0 < i < |ps| && i != k
    ensures CollectEntries(ps)[i] == Entry(ps[i])
  {
    SingleSelfSwapsWithFirst(ps, k);
    assert CollectEntries(ps)[i] == Formatted(ps)[i];
  }

  /** Whatever else the registry holds, once the API has been enumerated the
      first entry is the API's entry from its last enumeration. */
  lemma {:induction false} FrontIsLastSelfSeen(ps: seq<PluginMetadata>, k: nat)
    requires k < |ps| && IsSelf(ps[k])
    requires forall i :: k < i < |ps| ==> !IsSelf(ps[i])
    ensures CollectEntries(ps)[0] == Entry(ps[k])
  {
    var n := |ps|;
    if k < n - 1 {
      FrontIsLastSelfSeen(ps[..n - 1], k);
    }
  }

  /** The list is empty exactly when the registry is. */
  lemma EmptyRegistryEmptyList(ps: seq<PluginMetadata>)
    ensures CollectEntries(ps) == [] <==> ps == []
  {
  }

  /** Every entry shown is the entry of some enumerated plugin, and every
      enumerated plugin's entry is shown. */
  lemma {:induction false} EntriesAreExactlyThePlugins(ps: seq<PluginMetadata>)
    ensures forall e :: e in CollectEntries(ps) <==> exists i :: 0 <= i < |ps| && e == Entry(ps[i])
  {
    var r := CollectEntries(ps);
    CollectEntriesIsPermutation(ps);
    forall e
      ensures e in r <==> exists i :: 0 <= i < |ps| && e == Entry(ps[i])
    {
      calc {
        e in r;
        e in multiset(r);
        e in multiset(Formatted(ps));
        e in Formatted(ps);
      }
      if e in Formatted(ps) {
        var i :| 0 <= i < |ps| && Formatted(ps)[i] == e;
      }
    }
  }

  /** The registry loop of `Start`, written as the loop it is. */
  method CollectPlugins(registry: seq<PluginMetadata>) returns (entries: seq<string>)
    ensures entries == CollectEntries(registry)
    ensures |entries| == |registry|
  {
    entries := [];
    var i := 0;
    while i < |registry|
      invariant 0 <= i <= |registry|
      invariant entries == CollectEntries(registry[..i])
    {
      assert registry[..i + 1][..i] == registry[..i];
      entries := AddEntry(entries, registry[i]);
      i := i + 1;
    }
    assert registry[..i] == registry;
  }

  /** One overlay text row, with the fields `Start` sets on it. */
  datatype TextRow = TextRow(name: string, text: string, fontSize: int, bold: bool,
                             localPosition: Vec3, sizeDelta: Vec2)

  /** Vertical distance between consecutive rows. */
  const RowSpacing: int := 5

  const RowSize: Vec2 := Vec2(400.0, 10.0)

  const RowFontSize: int := 4

  /** Local position of the row container under the overlay canvas. */
  const PluginsOrigin: Vec3 := Vec3(10.0, 103.0, 0.0)

  /** The row-layout loop of `Start`: row `i` shows entry `i` and sits `5 * i`
      units below the container's origin. */
  method LayoutRows(entries: seq<string>) returns (rows: seq<TextRow>)
    ensures |rows| == |entries|
    ensures forall i :: 0 <= i < |rows| ==>
              && rows[i].name == entries[i] && rows[i].text == entries[i]
              && rows[i].fontSize == RowFontSize && rows[i].bold
              && rows[i].sizeDelta == RowSize
              && rows[i].localPosition == Vec3(0.0, (0 - i * RowSpacing) as real, 0.0)
    ensures forall i :: 0 < i < |rows| ==>
              rows[i].localPosition.y == rows[i - 1].localPosition.y - RowSpacing as real
    ensures forall i, j :: 0 <= i < j < |rows| ==> rows[j].localPosition.y < rows[i].localPosition.y
  {
    rows := [];
    var i := 0;
    while i < |entries|
      invariant 0 <= i <= |entries|
      invariant |rows| == i
      invariant forall k :: 0 <= k < i ==>
                  rows[k] == TextRow(entries[k], entries[k], RowFontSize, true,
                                     Vec3(0.0, (0 - k * RowSpacing) as real, 0.0), RowSize)
    {
      var row := TextRow(entries[i], entries[i], RowFontSize, true,
                         Vec3(0.0, (0 - i * RowSpacing) as real, 0.0), RowSize);
      rows := rows + [row];
      i := i + 1;
    }
  }

  /** What `Start` leaves on screen, as far as the plugin list goes;
      `reportsNone` records whether "Couldn't find plugins" is logged, and
      `screen` is the display after the resolution setting was applied. */
  datatype Overlay = Overlay(entries: seq<string>, reportsNone: bool,
                             pluginsOrigin: Vec3, rows: seq<TextRow>,
                             screen: Settings.Screen)

  /** The plugin's start-up: apply the stored resolution setting, then gather
      the plugin list and lay out its rows. A stored value outside the declared
      resolutions makes the settings step fail, and nothing after it runs. */
  method Start(registry: seq<PluginMetadata>, stored: Option<int>, screen: Settings.Screen)
    returns (r: Result<Overlay, Settings.SettingsError>)
    ensures r.Success? <==> stored.None? || 0 <= stored.value < 12
    ensures r.Failure? ==> r.error == Settings.IndexOutOfRange
    ensures r.Success? ==> Settings.InitSettings(stored, screen) == Success(r.value.screen)
    ensures r.Success? ==> r.value.entries == CollectEntries(registry)
    ensures r.Success? ==> (r.value.reportsNone <==> |registry| == 0)
    ensures r.Success? ==> r.value.pluginsOrigin == PluginsOrigin
    ensures r.Success? ==> |r.value.rows| == |registry|
    ensures r.Success? ==> forall i :: 0 <= i < |r.value.rows| ==>
              r.value.rows[i].text == r.value.entries[i] && r.value.rows[i].name == r.value.entries[i]
    ensures r.Success? ==> forall i :: 0 <= i < |r.value.rows| ==>
              r.value.rows[i].fontSize == RowFontSize && r.value.rows[i].bold && r.value.rows[i].sizeDelta == RowSize
    ensures r.Success? ==> forall i :: 0 <= i < |r.value.rows| ==>
              r.value.rows[i].localPosition.y == (0 - i * RowSpacing) as real
  {
    var applied := Settings.InitSettings(stored, screen);
    if applied.Failure? {
      return Failure(applied.error);
    }
    var entries := CollectPlugins(registry);
    var reportsNone := |entries| == 0;
    var rows := LayoutRows(entries);
    r := Success(Overlay(entries, reportsNone, PluginsOrigin, rows, applied.value));
  }
}
