/** The slice tree shown beside the player: a root with three categories (video, audio,
    other), one node per stream index under the category of the stream's first slice, one
    node per slice under its stream, and eight property rows under each slice. Items are
    values; a parent's pointer is replaced by the path from the root. */
module SliceTree {
  import opened Common
  import opened MediaParser

  // ---------------------------------------------------------------------------
  // SliceTreeItem

  /** SliceTreeItem: a name, a value (a null QString is the empty string) and the children
      in insertion order. */
  datatype TreeItem = TreeItem(name: string, value: string, children: seq<TreeItem>)

  /** SliceTreeItem::child: the child at `row`, none outside [0, childCount). */
  function Child(item: TreeItem, row: int): Option<TreeItem>
  {
    if row < 0 || row >= |item.children| then None else Some(item.children[row])
  }

  /** SliceTreeItem::data: column 0 is the name, column 1 the value, any other column an
      empty QVariant. */
  function Data(item: TreeItem, column: int): Option<string>
  {
    if column == 0 then Some(item.name) else if column == 1 then Some(item.value) else None
  }

  /** SliceTreeItem::setData: replaces the name and the value, keeps the children. */
  function SetData(item: TreeItem, name: string, value: string): TreeItem
  {
    TreeItem(name, value, item.children)
  }

  /** The constructor with a parent appends the new item to the parent's children. */
  function AppendChild(parent: TreeItem, child: TreeItem): TreeItem
  {
    TreeItem(parent.name, parent.value, parent.children + [child])
  }

  /** The item reached from `root` by following `path` with Child. */
  function ItemAt(root: TreeItem, path: seq<int>): Option<TreeItem>
    decreases |path|
  {
    if path == [] then Some(root)
    else
      match ItemAt(root, path[..|path| - 1])
      case None => None
      case Some(parent) => Child(parent, path[|path| - 1])
  }

  /** SliceTreeItem::row: the item's position among its parent's children; 0 for the root. */
  function Row(path: seq<int>): int
  {
    if path == [] then 0 else path[|path| - 1]
  }

  /** row() and child() are inverse: the parent's child at an item's row is the item, and
      that row is in range. */
  lemma ChildOfRow(root: TreeItem, path: seq<int>)
    requires path != [] && ItemAt(root, path).Some?
    ensures var parent := ItemAt(root, path[..|path| - 1]);
      && parent.Some?
      && 0 <= Row(path) < |parent.value.children|
      && Child(parent.value, Row(path)) == ItemAt(root, path)
  {
  }

  /** An appended child is found at the next row; every other row finds what it found
      before, and the parent's own data is kept. */
  lemma AppendChildThenChild(parent: TreeItem, child: TreeItem, row: int)
    ensures var after := AppendChild(parent, child);
      && Child(after, |parent.children|) == Some(child)
      && (row != |parent.children| ==> Child(after, row) == Child(parent, row))
      && Data(after, 0) == Data(parent, 0) && Data(after, 1) == Data(parent, 1)
  {
  }

  /** setData changes what data() returns for both columns and nothing else. */
  lemma SetDataThenData(item: TreeItem, name: string, value: string, column: int)
    ensures Data(SetData(item, name, value), column)
              == (if column == 0 then Some(name) else if column == 1 then Some(value) else None)
    ensures SetData(item, name, value).children == item.children
    ensures Data(item, column).Some? <==> column == 0 || column == 1
  {
  }

  // ---------------------------------------------------------------------------
  // Formatting

  /** formatTimestamp: "N/A" for a negative timestamp, its decimal digits otherwise. */
  function FormatTimestamp(timestamp: int): string
  {
    if timestamp < 0 then "N/A" else Decimal(timestamp)
  }

  /** A formatted timestamp reads back as the timestamp, and "N/A" reads back as nothing, so
      the two cases cannot be confused. */
  lemma FormatTimestampRoundTrip(timestamp: int)
    ensures ParseInt(FormatTimestamp(timestamp), 10) == (if timestamp < 0 then None else Some(timestamp))
  {
    if timestamp < 0 {
      assert DigitValue('A').None?;
      assert FormatTimestamp(timestamp)[|"N/A"| - 1] == 'A';
    } else {
      ParseIntToString(timestamp, 10);
    }
  }

  /** addPropertyItem: a leaf whose value is the given text, or "N/A" when that is empty. */
  function PropertyItem(name: string, value: string): TreeItem
  {
    TreeItem(name, if value == "" then "N/A" else value, [])
  }

  /** createSliceItem: the eight property rows of a slice, in this order. */
  function SliceProperties(slice: SliceInfo): seq<TreeItem>
  {
    [ PropertyItem("Stream Index", Decimal(slice.streamIndex)),
      PropertyItem("Stream Type", slice.streamType),
      PropertyItem("PTS", FormatTimestamp(slice.pts)),
      PropertyItem("DTS", FormatTimestamp(slice.dts)),
      PropertyItem("Duration", Decimal(slice.duration)),
      PropertyItem("Size", Decimal(slice.size) + " bytes"),
      PropertyItem("Key Frame", if slice.isKeyFrame then "Yes" else "No"),
      PropertyItem("Position", "0x" + Hex(slice.pos)) ]
  }

  /** The node of one slice: named after its pts, valued by its key-frame flag, with its
      eight property rows. */
  function SliceItem(slice: SliceInfo): TreeItem
  {
    TreeItem("Slice at PTS " + FormatTimestamp(slice.pts),
             if slice.isKeyFrame then "Key Frame" else "Regular Frame",
             SliceProperties(slice))
  }

  /** Every slice node has exactly eight leaf rows, in a fixed order, and none of them has
      an empty value. */
  lemma SliceItemShape(slice: SliceInfo)
    ensures var props := SliceItem(slice).children;
      && |props| == 8
      && props[0].name == "Stream Index" && props[1].name == "Stream Type"
      && props[2].name == "PTS" && props[3].name == "DTS" && props[4].name == "Duration"
      && props[5].name == "Size" && props[6].name == "Key Frame" && props[7].name == "Position"
      && (forall j :: 0 <= j < 8 ==> props[j].children == [] && props[j].value != "")
  {
    PropertyNames(slice);
    PropertyLeaves(slice);
  }

  lemma PropertyNames(slice: SliceInfo)
    ensures var props := SliceProperties(slice);
      && |props| == 8
      && props[0].name == "Stream Index" && props[1].name == "Stream Type"
      && props[2].name == "PTS" && props[3].name == "DTS" && props[4].name == "Duration"
      && props[5].name == "Size" && props[6].name == "Key Frame" && props[7].name == "Position"
  {
  }

  lemma PropertyLeaves(slice: SliceInfo)
    ensures var props := SliceProperties(slice);
      |props| == 8 && forall j :: 0 <= j < 8 ==> props[j].children == [] && props[j].value != ""
  {
  }

  /** The stream index and duration rows read back as the slice's fields. */
  lemma SliceItemNumbers(slice: SliceInfo)
    ensures var props := SliceItem(slice).children;
      && ParseInt(props[0].value, 10) == Some(slice.streamIndex as int)
      && ParseInt(props[4].value, 10) == Some(slice.duration as int)
  {
    IntToStringShape(slice.streamIndex, 10);
    IntToStringShape(slice.duration, 10);
    ParseIntToString(slice.streamIndex, 10);
    ParseIntToString(slice.duration, 10);
  }

  /** The PTS and DTS rows read back as the timestamps, and as nothing when they are
      unset (negative). */
  lemma SliceItemTimestamps(slice: SliceInfo)
    ensures var props := SliceItem(slice).children;
      && ParseInt(props[2].value, 10) == (if slice.pts < 0 then None else Some(slice.pts as int))
      && ParseInt(props[3].value, 10) == (if slice.dts < 0 then None else Some(slice.dts as int))
  {
    FormatTimestampRoundTrip(slice.pts);
    FormatTimestampRoundTrip(slice.dts);
  }

  /** The type row is the stream type, or "N/A" for an empty type; the key-frame row says
      "Yes" exactly for key frames, as does the slice node's own value. */
  lemma SliceItemFlags(slice: SliceInfo)
    ensures var props := SliceItem(slice).children;
      && props[1].value == (if slice.streamType == "" then "N/A" else slice.streamType)
      && (props[6].value == "Yes" <==> slice.isKeyFrame)
      && (SliceItem(slice).value == "Key Frame" <==> slice.isKeyFrame)
  {
  }

  /** The size row is the decimal size followed by " bytes". */
  lemma SliceItemSize(slice: SliceInfo)
    ensures var v := SliceItem(slice).children[5].value;
      && |v| > 6 && v[|v| - 6..] == " bytes"
      && ParseInt(v[..|v| - 6], 10) == Some(slice.size as int)
  {
    var v := SliceItem(slice).children[5].value;
    assert v == Decimal(slice.size) + " bytes";
    ParseIntToString(slice.size, 10);
    SplitSuffix(Decimal(slice.size), " bytes");
  }

  /** A suffix appended to a string is found again at its end, and the rest is the string. */
  lemma SplitSuffix(s: string, suffix: string)
    ensures var v := s + suffix;
      && |v| == |s| + |suffix| && v[|v| - |suffix|..] == suffix && v[..|v| - |suffix|] == s
  {
    var v := s + suffix;
    assert v[..|s|] == s;
    assert v[|s|..] == suffix;
  }

  /** The position row is "0x" followed by the position in hexadecimal. */
  lemma SliceItemPosition(slice: SliceInfo)
    ensures var v := SliceItem(slice).children[7].value;
      && |v| > 2 && v[..2] == "0x" && ParseInt(v[2..], 16) == Some(slice.pos as int)
  {
    IntToStringShape(slice.pos, 16);
    ParseIntToString(slice.pos, 16);
    var v := SliceItem(slice).children[7].value;
    assert v[2..] == Hex(slice.pos);
  }

  // ---------------------------------------------------------------------------
  // What the rebuilt tree contains

  const VIDEO_CATEGORY: nat := 0
  const AUDIO_CATEGORY: nat := 1
  const OTHER_CATEGORY: nat := 2

  /** The category a slice is counted in, by its stream type. */
  function Category(slice: SliceInfo): (c: nat)
    ensures c < 3
  {
    if slice.streamType == "video" then VIDEO_CATEGORY
    else if slice.streamType == "audio" then AUDIO_CATEGORY
    else OTHER_CATEGORY
  }

  function CategoryName(c: nat): string
    requires c < 3
  {
    if c == VIDEO_CATEGORY then "Video Slices" else if c == AUDIO_CATEGORY then "Audio Slices" else "Other Slices"
  }

  /** Number of slices in category c. */
  function Count(slices: seq<SliceInfo>, c: nat): nat
  {
    if slices == [] then 0
    else Count(slices[..|slices| - 1], c) + (if Category(slices[|slices| - 1]) == c then 1 else 0)
  }

  /** The distinct stream indexes, in order of first appearance. */
  function Indexes(slices: seq<SliceInfo>): seq<int32>
  {
    if slices == [] then []
    else
      var ix := Indexes(slices[..|slices| - 1]);
      var last := slices[|slices| - 1].streamIndex;
      if last in ix then ix else ix + [last]
  }

  /** The first slice with stream index idx. */
  function FirstOf(slices: seq<SliceInfo>, idx: int32): Option<SliceInfo>
  {
    if slices == [] then None
    else
      var f := FirstOf(slices[..|slices| - 1], idx);
      if f.Some? then f
      else if slices[|slices| - 1].streamIndex == idx then Some(slices[|slices| - 1])
      else None
  }

  /** The slices with stream index idx, in order. */
  function Members(slices: seq<SliceInfo>, idx: int32): seq<SliceInfo>
  {
    if slices == [] then []
    else
      Members(slices[..|slices| - 1], idx)
        + (if slices[|slices| - 1].streamIndex == idx then [slices[|slices| - 1]] else [])
  }

  /** The category a stream's node lives in: that of its first slice. */
  function StreamCategory(slices: seq<SliceInfo>, idx: int32): nat
  {
    match FirstOf(slices, idx)
    case None => OTHER_CATEGORY
    case Some(f) => Category(f)
  }

  /** The value of a stream's node: the stream type of its first slice. */
  function StreamTypeOf(slices: seq<SliceInfo>, idx: int32): string
  {
    match FirstOf(slices, idx)
    case None => ""
    case Some(f) => f.streamType
  }

  /** The streams whose node lives in category c, in order of first appearance. */
  function StreamOrder(slices: seq<SliceInfo>, c: nat): seq<int32>
  {
    if slices == [] then []
    else
      var init, last := slices[..|slices| - 1], slices[|slices| - 1];
      var o := StreamOrder(init, c);
      if last.streamIndex !in Indexes(init) && Category(last) == c then o + [last.streamIndex] else o
  }

  /** How a slice and a new stream become tree items. The grouping below only places the
      items it is given, so it is stated for any display; the model uses SLICE_DISPLAY. */
  datatype Display = Display(sliceNode: SliceInfo -> TreeItem, streamHeader: (int32, string) -> TreeItem)

  /** A new stream's node before any slice is appended: "Stream <idx>" with the stream type
      of the slice that created it. */
  function StreamHeader(idx: int32, streamType: string): TreeItem
  {
    TreeItem("Stream " + Decimal(idx), streamType, [])
  }

  const SLICE_DISPLAY: Display := Display(SliceItem, StreamHeader)

  function SliceItems(d: Display, slices: seq<SliceInfo>): (items: seq<TreeItem>)
    ensures |items| == |slices|
    ensures forall i :: 0 <= i < |slices| ==> items[i] == d.sliceNode(slices[i])
  {
    seq(|slices|, i requires 0 <= i < |slices| => d.sliceNode(slices[i]))
  }

  /** The node of stream idx: the header built from its index and the type of its first
      slice, then one slice node per slice of that stream, in order. */
  function StreamNode(d: Display, slices: seq<SliceInfo>, idx: int32): TreeItem
  {
    var h := d.streamHeader(idx, StreamTypeOf(slices, idx));
    TreeItem(h.name, h.value, h.children + SliceItems(d, Members(slices, idx)))
  }

  function StreamNodes(d: Display, slices: seq<SliceInfo>, order: seq<int32>): (nodes: seq<TreeItem>)
    ensures |nodes| == |order|
    ensures forall j :: 0 <= j < |order| ==> nodes[j] == StreamNode(d, slices, order[j])
  {
    seq(|order|, j requires 0 <= j < |order| => StreamNode(d, slices, order[j]))
  }

  /** A category's value: its count, or "None" when it is empty. */
  function CategoryValue(count: nat): string
  {
    if count == 0 then "None" else Decimal(count)
  }

  function CategoryNode(d: Display, slices: seq<SliceInfo>, c: nat): TreeItem
    requires c < 3
  {
    TreeItem(CategoryName(c), CategoryValue(Count(slices, c)), StreamNodes(d, slices, StreamOrder(slices, c)))
  }

  /** The tree rebuildTreeFromSlices leaves: exactly three categories under the root. */
  function BuildTree(d: Display, slices: seq<SliceInfo>): TreeItem
  {
    TreeItem("Root", "", [CategoryNode(d, slices, VIDEO_CATEGORY), CategoryNode(d, slices, AUDIO_CATEGORY),
                          CategoryNode(d, slices, OTHER_CATEGORY)])
  }

  /** The tree before any slices: the root and the placeholder row of setupModelData. */
  function PlaceholderTree(): TreeItem
  {
    TreeItem("Root", "", [TreeItem("No slices available", "", [])])
  }

  // ---------------------------------------------------------------------------
  // Properties of the grouping

  lemma SnocParts(slices: seq<SliceInfo>, s: SliceInfo)
    ensures var all := slices + [s];
      all[..|all| - 1] == slices && all[|all| - 1] == s
  {
  }

  /** A category's value reads back as its count, and "None" marks an empty category. */
  lemma CategoryValueRoundTrip(count: nat)
    ensures count == 0 <==> CategoryValue(count) == "None"
    ensures count > 0 ==> ParseInt(CategoryValue(count), 10) == Some(count)
  {
    if count > 0 {
      ParseIntToString(count, 10);
      IntToStringShape(count, 10);
      var s := Decimal(count);
      assert s[0] in s;
      assert DigitValue('N').None?;
      assert s[0] != "None"[0];
    }
  }

  /** The three counters add up to the number of slices. */
  lemma {:induction false} CountsSum(slices: seq<SliceInfo>)
    ensures Count(slices, VIDEO_CATEGORY) + Count(slices, AUDIO_CATEGORY) + Count(slices, OTHER_CATEGORY) == |slices|
    decreases |slices|
  {
    if slices != [] {
      CountsSum(slices[..|slices| - 1]);
    }
  }

  /** Counting is additive over appended lists (what appendSliceData relies on). */
  lemma {:induction false} CountAppend(a: seq<SliceInfo>, b: seq<SliceInfo>, c: nat)
    ensures Count(a + b, c) == Count(a, c) + Count(b, c)
    decreases |b|
  {
    if b == [] {
      assert a + b == a;
    } else {
      var b' := b[..|b| - 1];
      assert (a + b)[..|a + b| - 1] == a + b';
      CountAppend(a, b', c);
    }
  }

  /** A stream index is listed once it occurs, and then it has a first slice, which is the
      earliest slice with that index. */
  lemma {:induction false} FirstOfSpec(slices: seq<SliceInfo>, idx: int32)
    ensures idx in Indexes(slices) <==> FirstOf(slices, idx).Some?
    ensures FirstOf(slices, idx).Some? <==> exists i :: 0 <= i < |slices| && slices[i].streamIndex == idx
    ensures FirstOf(slices, idx).Some? ==>
              exists i :: 0 <= i < |slices| && slices[i] == FirstOf(slices, idx).value
                          && slices[i].streamIndex == idx
                          && forall j :: 0 <= j < i ==> slices[j].streamIndex != idx
    decreases |slices|
  {
    if slices != [] {
      var init, last := slices[..|slices| - 1], slices[|slices| - 1];
      FirstOfSpec(init, idx);
      if FirstOf(init, idx).Some? {
        var i :| 0 <= i < |init| && init[i] == FirstOf(init, idx).value && init[i].streamIndex == idx
                 && forall j :: 0 <= j < i ==> init[j].streamIndex != idx;
        assert slices[i] == init[i];
      } else if last.streamIndex == idx {
        assert forall j :: 0 <= j < |init| ==> slices[j] == init[j];
        assert slices[|init|] == last;
      } else {
        assert forall j :: 0 <= j < |init| ==> slices[j] == init[j];
      }
    }
  }

  /** A stream's slices are exactly the slices with its index, and none without a first
      slice. */
  lemma {:induction false} MembersSpec(slices: seq<SliceInfo>, idx: int32)
    ensures forall s :: s in Members(slices, idx) <==> s in slices && s.streamIndex == idx
    ensures FirstOf(slices, idx).None? ==> Members(slices, idx) == []
    decreases |slices|
  {
    if slices != [] {
      var init := slices[..|slices| - 1];
      MembersSpec(init, idx);
      assert slices == init + [slices[|slices| - 1]];
    }
  }

  /** Each stream index lies in exactly the category of its first slice, once. */
  lemma {:induction false} StreamOrderSpec(slices: seq<SliceInfo>, c: nat)
    ensures forall idx :: idx in StreamOrder(slices, c) <==> idx in Indexes(slices) && StreamCategory(slices, idx) == c
    ensures forall j, k :: 0 <= j < k < |StreamOrder(slices, c)| ==> StreamOrder(slices, c)[j] != StreamOrder(slices, c)[k]
    decreases |slices|
  {
    if slices != [] {
      var init, last := slices[..|slices| - 1], slices[|slices| - 1];
      var li := last.streamIndex;
      StreamOrderSpec(init, c);
      FirstOfSpec(init, li);
      assert forall idx :: idx != li ==> FirstOf(slices, idx) == FirstOf(init, idx);
      if li in Indexes(init) {
        assert FirstOf(slices, li) == FirstOf(init, li);
      } else {
        assert FirstOf(slices, li) == Some(last);
        assert li !in StreamOrder(init, c);
      }
    }
  }

  /** Every stream gets exactly one node, under one category; the categories' streams are
      the distinct indexes, each under the category of its first slice. */
  lemma StreamPartition(slices: seq<SliceInfo>, idx: int32)
    ensures (exists i :: 0 <= i < |slices| && slices[i].streamIndex == idx) <==>
              idx in StreamOrder(slices, VIDEO_CATEGORY) || idx in StreamOrder(slices, AUDIO_CATEGORY)
              || idx in StreamOrder(slices, OTHER_CATEGORY)
    ensures forall c :: 0 <= c < 3 && idx in StreamOrder(slices, c) ==>
              FirstOf(slices, idx).Some? && c == Category(FirstOf(slices, idx).value)
  {
    FirstOfSpec(slices, idx);
    StreamOrderSpec(slices, VIDEO_CATEGORY);
    StreamOrderSpec(slices, AUDIO_CATEGORY);
    StreamOrderSpec(slices, OTHER_CATEGORY);
  }

  // ---------------------------------------------------------------------------
  // The rebuild loop as a fold

  /** Where a stream's node sits: in which category and at which row. */
  datatype StreamRef = StreamRef(category: nat, row: nat)

  /** The rebuild loop's local state: the stream nodes of each category, the stream map and
      the three counters. */
  datatype Grouping = Grouping(streams: seq<seq<TreeItem>>, items: map<int32, StreamRef>,
                               videoCount: nat, audioCount: nat, otherCount: nat)

  ghost predicate WellFormed(g: Grouping)
  {
    && |g.streams| == 3
    && forall idx :: idx in g.items ==> g.items[idx].category < 3 && g.items[idx].row < |g.streams[g.items[idx].category]|
  }

  /** One iteration of the rebuild loop: count the slice, create its stream's node under
      the slice's category if the stream is new, and append the slice's node to it. */
  function GroupStep(d: Display, g: Grouping, slice: SliceInfo): (r: Grouping)
    requires WellFormed(g)
    ensures WellFormed(r)
  {
    var c := Category(slice);
    var video := if c == VIDEO_CATEGORY then g.videoCount + 1 else g.videoCount;
    var audio := if c == AUDIO_CATEGORY then g.audioCount + 1 else g.audioCount;
    var other := if c == OTHER_CATEGORY then g.otherCount + 1 else g.otherCount;
    var idx := slice.streamIndex;
    var streams :=
      if idx in g.items then g.streams
      else g.streams[c := g.streams[c] + [d.streamHeader(idx, slice.streamType)]];
    var items := if idx in g.items then g.items else g.items[idx := StreamRef(c, |g.streams[c]|)];
    var ref := items[idx];
    var node := streams[ref.category][ref.row];
    Grouping(streams[ref.category := streams[ref.category][ref.row := AppendChild(node, d.sliceNode(slice))]],
             items, video, audio, other)
  }

  function GroupFold(d: Display, slices: seq<SliceInfo>): (g: Grouping)
    ensures WellFormed(g)
  {
    if slices == [] then Grouping([[], [], []], map[], 0, 0, 0)
    else GroupStep(d, GroupFold(d, slices[..|slices| - 1]), slices[|slices| - 1])
  }

  /** The counters after `slices` are the counts. */
  ghost predicate CountsMatch(g: Grouping, slices: seq<SliceInfo>)
  {
    && g.videoCount == Count(slices, VIDEO_CATEGORY)
    && g.audioCount == Count(slices, AUDIO_CATEGORY)
    && g.otherCount == Count(slices, OTHER_CATEGORY)
  }

  /** The map locates every stream seen so far, and only those. */
  ghost predicate ItemsMatch(items: map<int32, StreamRef>, slices: seq<SliceInfo>)
  {
    && (forall idx :: idx in items <==> idx in Indexes(slices))
    && (forall idx :: idx in items ==>
          var r := items[idx];
          r.category == StreamCategory(slices, idx)
          && r.row < |StreamOrder(slices, r.category)| && StreamOrder(slices, r.category)[r.row] == idx)
  }

  /** Each category holds its streams' nodes, in order of first appearance. */
  ghost predicate StreamsMatch(d: Display, g: Grouping, slices: seq<SliceInfo>)
    requires |g.streams| == 3
  {
    forall c :: 0 <= c < 3 ==> g.streams[c] == StreamNodes(d, slices, StreamOrder(slices, c))
  }

  /** The loop state after `slices` is the declared tree. */
  ghost predicate GroupingMatches(d: Display, g: Grouping, slices: seq<SliceInfo>)
  {
    WellFormed(g) && CountsMatch(g, slices) && ItemsMatch(g.items, slices) && StreamsMatch(d, g, slices)
  }

  lemma {:induction false} GroupFoldMatches(d: Display, slices: seq<SliceInfo>)
    ensures GroupingMatches(d, GroupFold(d, slices), slices)
    decreases |slices|
  {
    if slices != [] {
      GroupFoldMatches(d, slices[..|slices| - 1]);
      GroupStepMatchesLast(d, GroupFold(d, slices[..|slices| - 1]), slices);
    }
  }

  /** GroupStepMatches, for a list split at its last slice. */
  lemma GroupStepMatchesLast(d: Display, g: Grouping, slices: seq<SliceInfo>)
    requires |slices| > 0 && GroupingMatches(d, g, slices[..|slices| - 1])
    ensures GroupingMatches(d, GroupStep(d, g, slices[|slices| - 1]), slices)
  {
    SplitLast(slices);
    GroupStepMatches(d, g, slices[..|slices| - 1], slices[|slices| - 1]);
  }

  lemma SplitLast(slices: seq<SliceInfo>)
    requires |slices| > 0
    ensures slices[..|slices| - 1] + [slices[|slices| - 1]] == slices
  {
  }

  lemma GroupStepMatches(d: Display, g: Grouping, init: seq<SliceInfo>, s: SliceInfo)
    requires GroupingMatches(d, g, init)
    ensures GroupingMatches(d, GroupStep(d, g, s), init + [s])
  {
    StepCounts(d, g, init, s);
    var r := GroupStep(d, g, s);
    var idx := s.streamIndex;
    if idx in g.items {
      GroupStepSeen(d, g, s);
      SeenStreamStep(d, g, init, s, r);
    } else {
      GroupStepNew(d, g, s);
      NewStreamStep(d, g, init, s, r);
    }
  }

  /** The step counts the slice in its category's counter only. */
  lemma GroupStepCounts(d: Display, g: Grouping, s: SliceInfo)
    requires WellFormed(g)
    ensures var c := Category(s);
      var r := GroupStep(d, g, s);
      && r.videoCount == g.videoCount + (if c == VIDEO_CATEGORY then 1 else 0)
      && r.audioCount == g.audioCount + (if c == AUDIO_CATEGORY then 1 else 0)
      && r.otherCount == g.otherCount + (if c == OTHER_CATEGORY then 1 else 0)
  {
  }

  /** The step for a stream seen before: only that stream's node changes. */
  lemma GroupStepSeen(d: Display, g: Grouping, s: SliceInfo)
    requires WellFormed(g) && s.streamIndex in g.items
    ensures var ref := g.items[s.streamIndex];
      var r := GroupStep(d, g, s);
      && r.items == g.items
      && r.streams == g.streams[ref.category := g.streams[ref.category][ref.row := AppendChild(g.streams[ref.category][ref.row], d.sliceNode(s))]]
  {
  }

  /** The step for a new stream: its node, holding just the slice, ends its category. */
  lemma GroupStepNew(d: Display, g: Grouping, s: SliceInfo)
    requires WellFormed(g) && s.streamIndex !in g.items
    ensures var c := Category(s);
      var r := GroupStep(d, g, s);
      && r.items == g.items[s.streamIndex := StreamRef(c, |g.streams[c]|)]
      && r.streams == g.streams[c := g.streams[c] + [AppendChild(d.streamHeader(s.streamIndex, s.streamType), d.sliceNode(s))]]
  {
    var c := Category(s);
    var header := d.streamHeader(s.streamIndex, s.streamType);
    var streams := g.streams[c := g.streams[c] + [header]];
    assert streams[c][|g.streams[c]|] == header;
    assert streams[c][|g.streams[c]| := AppendChild(header, d.sliceNode(s))] == g.streams[c] + [AppendChild(header, d.sliceNode(s))];
  }

  lemma StepCounts(d: Display, g: Grouping, init: seq<SliceInfo>, s: SliceInfo)
    requires WellFormed(g) && CountsMatch(g, init)
    ensures CountsMatch(GroupStep(d, g, s), init + [s])
  {
    SnocParts(init, s);
  }

  /** A slice of a stream seen before adds no stream and moves none. */
  lemma SeenStreamIndexes(init: seq<SliceInfo>, s: SliceInfo)
    requires s.streamIndex in Indexes(init)
    ensures Indexes(init + [s]) == Indexes(init)
    ensures forall j :: FirstOf(init + [s], j) == FirstOf(init, j)
    ensures forall c :: StreamOrder(init + [s], c) == StreamOrder(init, c)
    ensures forall j :: j != s.streamIndex ==> Members(init + [s], j) == Members(init, j)
    ensures Members(init + [s], s.streamIndex) == Members(init, s.streamIndex) + [s]
    ensures forall j :: StreamCategory(init + [s], j) == StreamCategory(init, j)
    ensures forall j :: StreamTypeOf(init + [s], j) == StreamTypeOf(init, j)
  {
    SnocParts(init, s);
    FirstOfSpec(init, s.streamIndex);
    forall j
      ensures StreamCategory(init + [s], j) == StreamCategory(init, j)
      ensures StreamTypeOf(init + [s], j) == StreamTypeOf(init, j)
    {
      assert FirstOf(init + [s], j) == FirstOf(init, j);
    }
  }

  lemma SliceItemsSnoc(d: Display, slices: seq<SliceInfo>, s: SliceInfo)
    ensures SliceItems(d, slices + [s]) == SliceItems(d, slices) + [d.sliceNode(s)]
  {
  }

  /** A slice of a new stream adds it last, under the slice's own category. */
  lemma NewStreamIndexes(init: seq<SliceInfo>, s: SliceInfo)
    requires s.streamIndex !in Indexes(init)
    ensures Indexes(init + [s]) == Indexes(init) + [s.streamIndex]
    ensures FirstOf(init + [s], s.streamIndex) == Some(s)
    ensures forall j :: j != s.streamIndex ==> FirstOf(init + [s], j) == FirstOf(init, j)
    ensures StreamOrder(init + [s], Category(s)) == StreamOrder(init, Category(s)) + [s.streamIndex]
    ensures forall c :: c != Category(s) ==> StreamOrder(init + [s], c) == StreamOrder(init, c)
    ensures forall j :: j != s.streamIndex ==> Members(init + [s], j) == Members(init, j)
    ensures Members(init + [s], s.streamIndex) == [s]
  {
    SnocParts(init, s);
    FirstOfSpec(init, s.streamIndex);
    MembersSpec(init, s.streamIndex);
  }

  lemma SeenStreamStep(d: Display, g: Grouping, init: seq<SliceInfo>, s: SliceInfo, r: Grouping)
    requires GroupingMatches(d, g, init)
    requires s.streamIndex in g.items
    requires var ref := g.items[s.streamIndex];
      && r.items == g.items
      && r.streams == g.streams[ref.category := g.streams[ref.category][ref.row := AppendChild(g.streams[ref.category][ref.row], d.sliceNode(s))]]
    ensures ItemsMatch(r.items, init + [s])
    ensures |r.streams| == 3 && StreamsMatch(d, r, init + [s])
  {
    var slices := init + [s];
    var idx := s.streamIndex;
    SeenStreamIndexes(init, s);
    var ref := g.items[idx];
    SeenStreamItems(g.items, init, slices);
    SliceItemsSnoc(d, Members(init, idx), s);
    forall c | 0 <= c < 3
      ensures r.streams[c] == StreamNodes(d, slices, StreamOrder(slices, c))
    {
      StreamOrderSpec(init, c);
      SeenStreamNodes(d, g.streams[c], r.streams[c], StreamOrder(init, c), init, slices, idx,
                      if c == ref.category then ref.row else -1, d.sliceNode(s));
    }
  }

  lemma NewStreamStep(d: Display, g: Grouping, init: seq<SliceInfo>, s: SliceInfo, r: Grouping)
    requires GroupingMatches(d, g, init)
    requires s.streamIndex !in g.items
    requires var c := Category(s);
      && r.items == g.items[s.streamIndex := StreamRef(c, |g.streams[c]|)]
      && r.streams == g.streams[c := g.streams[c] + [AppendChild(d.streamHeader(s.streamIndex, s.streamType), d.sliceNode(s))]]
    ensures ItemsMatch(r.items, init + [s])
    ensures |r.streams| == 3 && StreamsMatch(d, r, init + [s])
  {
    var slices := init + [s];
    var idx := s.streamIndex;
    var cat := Category(s);
    NewStreamIndexes(init, s);
    forall j | j != idx
      ensures StreamCategory(slices, j) == StreamCategory(init, j)
      ensures StreamTypeOf(slices, j) == StreamTypeOf(init, j)
    {
      assert FirstOf(slices, j) == FirstOf(init, j);
    }
    assert StreamCategory(slices, idx) == cat && StreamTypeOf(slices, idx) == s.streamType;
    assert SliceItems(d, Members(slices, idx)) == [d.sliceNode(s)];
    assert |g.streams[cat]| == |StreamOrder(init, cat)|;
    NewStreamItems(g.items, init, slices, idx, cat, |g.streams[cat]|);
    forall c | 0 <= c < 3
      ensures r.streams[c] == StreamNodes(d, slices, StreamOrder(slices, c))
    {
      StreamOrderSpec(init, c);
      NewStreamNodes(d, g.streams[c], r.streams[c], StreamOrder(init, c), init, slices, idx, c == cat,
                     s.streamType, d.sliceNode(s));
    }
  }

  /** The map still locates every stream when the streams do not change. */
  lemma SeenStreamItems(items: map<int32, StreamRef>, init: seq<SliceInfo>, slices: seq<SliceInfo>)
    requires ItemsMatch(items, init)
    requires Indexes(slices) == Indexes(init)
    requires forall j :: StreamCategory(slices, j) == StreamCategory(init, j)
    requires forall c :: StreamOrder(slices, c) == StreamOrder(init, c)
    ensures ItemsMatch(items, slices)
  {
  }

  /** Recording a new stream at the end of its category keeps the map exact. */
  lemma NewStreamItems(items: map<int32, StreamRef>, init: seq<SliceInfo>, slices: seq<SliceInfo>,
                       idx: int32, cat: nat, n: nat)
    requires ItemsMatch(items, init) && idx !in items
    requires n == |StreamOrder(init, cat)|
    requires Indexes(slices) == Indexes(init) + [idx]
    requires StreamCategory(slices, idx) == cat
    requires forall j :: j != idx ==> StreamCategory(slices, j) == StreamCategory(init, j)
    requires StreamOrder(slices, cat) == StreamOrder(init, cat) + [idx]
    requires forall c :: c != cat ==> StreamOrder(slices, c) == StreamOrder(init, c)
    ensures ItemsMatch(items[idx := StreamRef(cat, n)], slices)
  {
  }

  /** A category's nodes after a slice of a stream seen before: that stream's node (at
      `row`, or in another category when `row` is -1) gains the slice's node; no other node
      changes. */
  lemma SeenStreamNodes(d: Display, before: seq<TreeItem>, after: seq<TreeItem>, order: seq<int32>,
                        init: seq<SliceInfo>, slices: seq<SliceInfo>, idx: int32, row: int, sn: TreeItem)
    requires before == StreamNodes(d, init, order)
    requires forall j, k :: 0 <= j < k < |order| ==> order[j] != order[k]
    requires -1 <= row < |order|
    requires row >= 0 ==> order[row] == idx && after == before[row := AppendChild(before[row], sn)]
    requires row < 0 ==> idx !in order && after == before
    requires forall j :: StreamTypeOf(slices, j) == StreamTypeOf(init, j)
    requires forall j :: j != idx ==> Members(slices, j) == Members(init, j)
    requires SliceItems(d, Members(slices, idx)) == SliceItems(d, Members(init, idx)) + [sn]
    ensures after == StreamNodes(d, slices, order)
  {
    forall j | 0 <= j < |order|
      ensures after[j] == StreamNode(d, slices, order[j])
    {
      if j == row {
        StreamNodeAppended(d, init, slices, idx, sn);
      } else {
        assert order[j] != idx;
        StreamNodeKept(d, init, slices, order[j]);
      }
    }
  }

  /** A stream whose type and members are unchanged keeps its node. */
  lemma StreamNodeKept(d: Display, init: seq<SliceInfo>, slices: seq<SliceInfo>, idx: int32)
    requires StreamTypeOf(slices, idx) == StreamTypeOf(init, idx)
    requires Members(slices, idx) == Members(init, idx)
    ensures StreamNode(d, slices, idx) == StreamNode(d, init, idx)
  {
  }

  /** A stream that gains one slice item gains it as its node's last child. */
  lemma StreamNodeAppended(d: Display, init: seq<SliceInfo>, slices: seq<SliceInfo>, idx: int32, sn: TreeItem)
    requires StreamTypeOf(slices, idx) == StreamTypeOf(init, idx)
    requires SliceItems(d, Members(slices, idx)) == SliceItems(d, Members(init, idx)) + [sn]
    ensures StreamNode(d, slices, idx) == AppendChild(StreamNode(d, init, idx), sn)
  {
    var h := d.streamHeader(idx, StreamTypeOf(init, idx));
    assert h.children + (SliceItems(d, Members(init, idx)) + [sn])
        == (h.children + SliceItems(d, Members(init, idx))) + [sn];
  }

  /** A category's nodes after a slice of a new stream: the category of the slice gains the
      stream's node holding just that slice; no other node changes. */
  lemma NewStreamNodes(d: Display, before: seq<TreeItem>, after: seq<TreeItem>, order: seq<int32>,
                       init: seq<SliceInfo>, slices: seq<SliceInfo>, idx: int32, appended: bool,
                       streamType: string, sn: TreeItem)
    requires before == StreamNodes(d, init, order)
    requires forall j :: j in order ==> j in Indexes(init)
    requires idx !in Indexes(init)
    requires after == if appended then before + [AppendChild(d.streamHeader(idx, streamType), sn)] else before
    requires forall j :: j != idx ==> StreamTypeOf(slices, j) == StreamTypeOf(init, j)
    requires forall j :: j != idx ==> Members(slices, j) == Members(init, j)
    requires StreamTypeOf(slices, idx) == streamType
    requires SliceItems(d, Members(slices, idx)) == [sn]
    ensures after == StreamNodes(d, slices, order + if appended then [idx] else [])
  {
    var order' := order + if appended then [idx] else [];
    forall j | 0 <= j < |order'|
      ensures after[j] == StreamNode(d, slices, order'[j])
    {
      if j < |order| {
        assert order[j] in order;
        assert order'[j] == order[j] != idx;
      }
    }
  }

  /** The tree assembled from the loop state is the declared tree. */
  lemma GroupFoldTree(d: Display, slices: seq<SliceInfo>)
    ensures var g := GroupFold(d, slices);
      TreeItem("Root", "", [TreeItem(CategoryName(VIDEO_CATEGORY), CategoryValue(g.videoCount), g.streams[VIDEO_CATEGORY]),
                            TreeItem(CategoryName(AUDIO_CATEGORY), CategoryValue(g.audioCount), g.streams[AUDIO_CATEGORY]),
                            TreeItem(CategoryName(OTHER_CATEGORY), CategoryValue(g.otherCount), g.streams[OTHER_CATEGORY])])
        == BuildTree(d, slices)
  {
    GroupFoldMatches(d, slices);
  }

  /** The rebuild's step over a prefix of the list. */
  lemma GroupFoldPrefix(d: Display, slices: seq<SliceInfo>, i: nat)
    requires i < |slices|
    ensures GroupFold(d, slices[..i + 1]) == GroupStep(d, GroupFold(d, slices[..i]), slices[i])
  {
    assert slices[..i + 1][..i] == slices[..i];
  }

  // ---------------------------------------------------------------------------
  // SliceTreeModel

  /** The slice tree model: the accumulated slices, the tree shown for them, the stream map
      and the three counters of the last rebuild. */
  class SliceTreeModel {
    var rootItem: TreeItem
    var videoSliceCount: nat
    var audioSliceCount: nat
    var otherSliceCount: nat
    var streamItems: map<int32, StreamRef>
    var accumulatedSlices: seq<SliceInfo>

    /** The tree always shows the accumulated slices: either the placeholder (before any
        slices, or after a clear) or the rebuilt tree, with matching counters and map. */
    ghost predicate Valid()
      reads this
    {
      || (rootItem == PlaceholderTree() && accumulatedSlices == [] && streamItems == map[]
          && videoSliceCount == 0 && audioSliceCount == 0 && otherSliceCount == 0)
      || (rootItem == BuildTree(SLICE_DISPLAY, accumulatedSlices)
          && videoSliceCount == Count(accumulatedSlices, VIDEO_CATEGORY)
          && audioSliceCount == Count(accumulatedSlices, AUDIO_CATEGORY)
          && otherSliceCount == Count(accumulatedSlices, OTHER_CATEGORY)
          && ItemsMatch(streamItems, accumulatedSlices))
    }

    /** A new model shows the placeholder and holds no slices. */
    constructor ()
      ensures rootItem == PlaceholderTree() && accumulatedSlices == [] && streamItems == map[]
      ensures videoSliceCount == 0 && audioSliceCount == 0 && otherSliceCount == 0
      ensures Valid()
    {
      videoSliceCount, audioSliceCount, otherSliceCount := 0, 0, 0;
      rootItem := TreeItem("Root", "", []);
      streamItems := map[];
      accumulatedSlices := [];
      new;
      SetupModelData();
    }

    /** setupModelData: appends the "No slices available" row to the root. */
    method SetupModelData()
      modifies this
      ensures rootItem == AppendChild(old(rootItem), TreeItem("No slices available", "", []))
      ensures videoSliceCount == old(videoSliceCount) && audioSliceCount == old(audioSliceCount)
      ensures otherSliceCount == old(otherSliceCount)
      ensures streamItems == old(streamItems) && accumulatedSlices == old(accumulatedSlices)
    {
      rootItem := AppendChild(rootItem, TreeItem("No slices available", "", []));
    }

    /** updateSliceData: the slices replace the accumulated ones and the tree is rebuilt. */
    method UpdateSliceData(slices: seq<SliceInfo>)
      modifies this
      ensures accumulatedSlices == slices
      ensures rootItem == BuildTree(SLICE_DISPLAY, slices)
      ensures Valid()
    {
      accumulatedSlices := slices;
      RebuildTreeFromSlices();
    }

    /** appendSliceData: an empty list changes nothing (not even the placeholder); any other
        list is appended and the tree is rebuilt. */
    method AppendSliceData(slices: seq<SliceInfo>)
      requires Valid()
      modifies this
      ensures slices == [] ==> unchanged(this)
      ensures slices != [] ==> accumulatedSlices == old(accumulatedSlices) + slices
                               && rootItem == BuildTree(SLICE_DISPLAY, accumulatedSlices)
      ensures Valid()
    {
      if |slices| == 0 {
        return;
      }
      accumulatedSlices := accumulatedSlices + slices;
      RebuildTreeFromSlices();
    }

    /** clearSliceData: back to the placeholder with no slices, no streams and zero counts. */
    method ClearSliceData()
      modifies this
      ensures rootItem == PlaceholderTree() && accumulatedSlices == [] && streamItems == map[]
      ensures videoSliceCount == 0 && audioSliceCount == 0 && otherSliceCount == 0
      ensures Valid()
    {
      rootItem := TreeItem("Root", "", []);
      SetupModelData();
      streamItems := map[];
      videoSliceCount, audioSliceCount, otherSliceCount := 0, 0, 0;
      accumulatedSlices := [];
    }

    /** getSliceCount: the number of accumulated slices. */
    method GetSliceCount() returns (n: nat)
      requires Valid()
      ensures n == |accumulatedSlices|
      ensures n == videoSliceCount + audioSliceCount + otherSliceCount
    {
      n := |accumulatedSlices|;
      CountsSum(accumulatedSlices);
    }

    /** rebuildTreeFromSlices: a fresh root with three categories; each slice is counted,
        its stream's node is created under the slice's category the first time the stream
        is seen, and the slice's node is appended to its stream's node; then each category
        shows its count, or "None". */
    method RebuildTreeFromSlices()
      modifies this
      ensures accumulatedSlices == old(accumulatedSlices)
      ensures rootItem == BuildTree(SLICE_DISPLAY, accumulatedSlices)
      ensures videoSliceCount == Count(accumulatedSlices, VIDEO_CATEGORY)
      ensures audioSliceCount == Count(accumulatedSlices, AUDIO_CATEGORY)
      ensures otherSliceCount == Count(accumulatedSlices, OTHER_CATEGORY)
      ensures ItemsMatch(streamItems, accumulatedSlices)
      ensures Valid()
    {
      streamItems := map[];
      videoSliceCount, audioSliceCount, otherSliceCount := 0, 0, 0;
      // The children of the three category items, which sit under the new root.
      var categories: seq<seq<TreeItem>> := [[], [], []];
      var i := 0;
      while i < |accumulatedSlices|
        invariant 0 <= i <= |accumulatedSlices|
        invariant accumulatedSlices == old(accumulatedSlices)
        invariant Grouping(categories, streamItems, videoSliceCount, audioSliceCount, otherSliceCount)
                    == GroupFold(SLICE_DISPLAY, accumulatedSlices[..i])
      {
        categories := AddSlice(categories, accumulatedSlices[i]);
        GroupFoldPrefix(SLICE_DISPLAY, accumulatedSlices, i);
        i := i + 1;
      }
      assert accumulatedSlices[..i] == accumulatedSlices;
      GroupFoldMatches(SLICE_DISPLAY, accumulatedSlices);
      GroupFoldTree(SLICE_DISPLAY, accumulatedSlices);
      ShowCategories(categories);
    }

    /** One iteration of the rebuild loop: count the slice, create its stream's node under
        the slice's category the first time the stream is seen, and append the slice's node
        (with its property rows) to the stream's node. */
    method AddSlice(categories: seq<seq<TreeItem>>, slice: SliceInfo) returns (result: seq<seq<TreeItem>>)
      requires WellFormed(Grouping(categories, streamItems, videoSliceCount, audioSliceCount, otherSliceCount))
      modifies this
      ensures Grouping(result, streamItems, videoSliceCount, audioSliceCount, otherSliceCount)
                == GroupStep(SLICE_DISPLAY, Grouping(categories, old(streamItems), old(videoSliceCount),
                                                     old(audioSliceCount), old(otherSliceCount)), slice)
      ensures rootItem == old(rootItem) && accumulatedSlices == old(accumulatedSlices)
    {
      ghost var before := Grouping(categories, streamItems, videoSliceCount, audioSliceCount, otherSliceCount);
      var c := CountSlice(slice);
      GroupStepCounts(SLICE_DISPLAY, before, slice);
      var streamIndex := slice.streamIndex;
      result := categories;
      if streamIndex !in streamItems {
        streamItems := streamItems[streamIndex := StreamRef(c, |result[c]|)];
        result := result[c := result[c] + [StreamHeader(streamIndex, slice.streamType)]];
      }
      var ref := streamItems[streamIndex];
      result := result[ref.category := result[ref.category][ref.row := AppendChild(result[ref.category][ref.row], SliceItem(slice))]];
      if streamIndex in before.items {
        GroupStepSeen(SLICE_DISPLAY, before, slice);
      } else {
        GroupStepNew(SLICE_DISPLAY, before, slice);
        assert result[c] == categories[c] + [AppendChild(StreamHeader(streamIndex, slice.streamType), SliceItem(slice))];
      }
    }

    /** The slice's category, by its stream type, with that category's counter advanced. */
    method CountSlice(slice: SliceInfo) returns (c: nat)
      modifies this
      ensures c == Category(slice)
      ensures videoSliceCount == old(videoSliceCount) + (if c == VIDEO_CATEGORY then 1 else 0)
      ensures audioSliceCount == old(audioSliceCount) + (if c == AUDIO_CATEGORY then 1 else 0)
      ensures otherSliceCount == old(otherSliceCount) + (if c == OTHER_CATEGORY then 1 else 0)
      ensures streamItems == old(streamItems) && rootItem == old(rootItem)
      ensures accumulatedSlices == old(accumulatedSlices)
    {
      if slice.streamType == "video" {
        c := VIDEO_CATEGORY;
        videoSliceCount := videoSliceCount + 1;
      } else if slice.streamType == "audio" {
        c := AUDIO_CATEGORY;
        audioSliceCount := audioSliceCount + 1;
      } else {
        c := OTHER_CATEGORY;
        otherSliceCount := otherSliceCount + 1;
      }
    }

    /** The end of the rebuild: the root gets the three category items, created with "0",
        then set to their counts, then to "None" where the count is 0. */
    method ShowCategories(categories: seq<seq<TreeItem>>)
      requires |categories| == 3
      modifies this
      ensures rootItem == TreeItem("Root", "", [
                TreeItem(CategoryName(VIDEO_CATEGORY), CategoryValue(videoSliceCount), categories[VIDEO_CATEGORY]),
                TreeItem(CategoryName(AUDIO_CATEGORY), CategoryValue(audioSliceCount), categories[AUDIO_CATEGORY]),
                TreeItem(CategoryName(OTHER_CATEGORY), CategoryValue(otherSliceCount), categories[OTHER_CATEGORY])])
      ensures videoSliceCount == old(videoSliceCount) && audioSliceCount == old(audioSliceCount)
      ensures otherSliceCount == old(otherSliceCount)
      ensures streamItems == old(streamItems) && accumulatedSlices == old(accumulatedSlices)
    {
      rootItem := TreeItem("Root", "", [TreeItem(CategoryName(VIDEO_CATEGORY), "0", categories[VIDEO_CATEGORY]),
                                        TreeItem(CategoryName(AUDIO_CATEGORY), "0", categories[AUDIO_CATEGORY]),
                                        TreeItem(CategoryName(OTHER_CATEGORY), "0", categories[OTHER_CATEGORY])]);
      SetCategoryValue(VIDEO_CATEGORY, Decimal(videoSliceCount));
      SetCategoryValue(AUDIO_CATEGORY, Decimal(audioSliceCount));
      SetCategoryValue(OTHER_CATEGORY, Decimal(otherSliceCount));
      if videoSliceCount == 0 {
        SetCategoryValue(VIDEO_CATEGORY, "None");
      }
      if audioSliceCount == 0 {
        SetCategoryValue(AUDIO_CATEGORY, "None");
      }
      if otherSliceCount == 0 {
        SetCategoryValue(OTHER_CATEGORY, "None");
      }
    }

    /** rootItem->child(c)->setData(name, value) on a category item, which keeps its name. */
    method SetCategoryValue(c: nat, value: string)
      requires c < |rootItem.children|
      modifies this
      ensures rootItem == TreeItem(old(rootItem).name, old(rootItem).value,
                                   old(rootItem).children[c := SetData(old(rootItem).children[c], old(rootItem).children[c].name, value)])
      ensures videoSliceCount == old(videoSliceCount) && audioSliceCount == old(audioSliceCount)
      ensures otherSliceCount == old(otherSliceCount)
      ensures streamItems == old(streamItems) && accumulatedSlices == old(accumulatedSlices)
    {
      var item := rootItem.children[c];
      rootItem := TreeItem(rootItem.name, rootItem.value, rootItem.children[c := SetData(item, item.name, value)]);
    }
  }
}
