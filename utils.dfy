/** The shared helpers of nodes/Ewelink/shared/utils.ts: reading the
    additional device parameters, shaping the switch parameters, and
    partitioning the vendor's thing list into devices and groups. */
module Utils {
  import opened Wrappers
  import opened Js

  // ---------------------------------------------------------------------------
  // parseDeviceParams

  /** `parseDeviceParams(input)`: a string is read as JSON (`parse`, with
      `None` when `JSON.parse` throws), falling back to `{}`; any other value
      is returned as it is. */
  function ParseDeviceParams(input: Value, parse: string -> Option<Value>): (r: Value)
    ensures !input.Str? ==> r == input
    ensures input.Str? && parse(input.s).None? ==> r == Obj(map[])
    ensures input.Str? && parse(input.s).Some? ==> r == parse(input.s).value
  {
    match input
    case Str(text) => parse(text).GetOr(Obj(map[]))
    case _ => input
  }

  // ---------------------------------------------------------------------------
  // formatSwitchParams

  /** `formatSwitchParams(state, outlet)`: the multi-channel form
      `{switches: [{switch, outlet}]}` for an outlet that is given and not
      negative, otherwise the single-channel form `{switch}`. */
  function FormatSwitchParams(state: Value, outlet: Option<int>): (r: Value)
    ensures r.Obj?
    ensures outlet.Some? && outlet.value >= 0 ==>
              && r.fields.Keys == {"switches"}
              && r.fields["switches"].Arr? && |r.fields["switches"].elems| == 1
              && var entry := r.fields["switches"].elems[0];
                 entry.Obj? && entry.fields.Keys == {"switch", "outlet"}
    ensures !(outlet.Some? && outlet.value >= 0) ==> r.fields.Keys == {"switch"}
  {
    if outlet.Some? && outlet.value >= 0 then
      Obj(map["switches" := Arr([Obj(map["switch" := state, "outlet" := Num(outlet.value)])])])
    else
      Obj(map["switch" := state])
  }

  /** What a device reads from switch parameters of exactly one of the two
      forms, `{switch}` or `{switches: [{switch, outlet}]}` with no other key:
      the state and, for the multi-channel form, the outlet it applies to. */
  function ReadSwitch(params: Value): Option<(Value, Option<int>)> {
    if params.Obj? && params.fields.Keys == {"switch"} then Some((params.fields["switch"], None))
    else if params.Obj? && params.fields.Keys == {"switches"} then
      var switches := params.fields["switches"];
      if switches.Arr? && |switches.elems| == 1 then
        var entry := switches.elems[0];
        if entry.Obj? && entry.fields.Keys == {"switch", "outlet"} && entry.fields["outlet"].Num? then
          Some((entry.fields["switch"], Some(entry.fields["outlet"].n)))
        else None
      else None
    else None
  }

  /** The parameters have exactly one of the two forms and carry the state,
      and they carry the outlet exactly when it is 0 or more: a negative or
      absent outlet addresses the whole device. */
  lemma ReadFormatSwitchParams(state: Value, outlet: Option<int>)
    ensures ReadSwitch(FormatSwitchParams(state, outlet)) ==
              Some((state, if outlet.Some? && outlet.value >= 0 then outlet else None))
  {
  }

  /** Whatever parameters read as a state and an outlet are exactly the ones
      `formatSwitchParams` builds for them: the two forms admit nothing else. */
  lemma ReadSwitchOnlyFormatted(params: Value)
    requires ReadSwitch(params).Some?
    ensures var (state, outlet) := ReadSwitch(params).value;
      (outlet.None? || outlet.value >= 0) ==> params == FormatSwitchParams(state, outlet)
  {
    if params.fields.Keys == {"switch"} {
      assert params.fields == map["switch" := params.fields["switch"]];
    } else {
      var entry := params.fields["switches"].elems[0];
      assert entry.fields == map["switch" := entry.fields["switch"], "outlet" := entry.fields["outlet"]];
      assert params.fields["switches"] == Arr([entry]);
      assert params.fields == map["switches" := params.fields["switches"]];
    }
  }

  // ---------------------------------------------------------------------------
  // The thing list

  /** An element of `thingList`: its `itemType` and `itemData`. */
  datatype ThingItem = ThingItem(itemType: Value, itemData: Value)

  /** `item.itemType === 1 || item.itemType === 2`. */
  predicate IsDevice(item: ThingItem) {
    item.itemType == Num(1) || item.itemType == Num(2)
  }

  /** `item.itemType === 3`. */
  predicate IsGroup(item: ThingItem) {
    item.itemType == Num(3)
  }

  /** `{...item.itemData, isShared: item.itemType === 2}`. */
  function DeviceRecord(item: ThingItem): (r: Value)
    ensures r.Obj? && "isShared" in r.fields && r.fields["isShared"] == Bool(item.itemType == Num(2))
    ensures forall key :: key in Spread(item.itemData) && key != "isShared" ==>
              key in r.fields && r.fields[key] == Spread(item.itemData)[key]
    ensures forall key :: key in r.fields ==> key == "isShared" || key in Spread(item.itemData)
  {
    Obj(Spread(item.itemData)["isShared" := Bool(item.itemType == Num(2))])
  }

  function GroupRecord(item: ThingItem): Value {
    item.itemData
  }

  /** `xs.filter(keep).map(f)`. */
  function FilterMap<T, U>(xs: seq<T>, keep: T -> bool, f: T -> U): (r: seq<U>)
    ensures |r| <= |xs|
    decreases |xs|
  {
    if xs == [] then []
    else (if keep(xs[0]) then [f(xs[0])] else []) + FilterMap(xs[1..], keep, f)
  }

  /** How many elements of `xs` are kept. */
  function Kept<T>(xs: seq<T>, keep: T -> bool): nat
    decreases |xs|
  {
    if xs == [] then 0 else (if keep(xs[0]) then 1 else 0) + Kept(xs[1..], keep)
  }

  lemma {:induction false} FilterMapLength<T, U>(xs: seq<T>, keep: T -> bool, f: T -> U)
    ensures |FilterMap(xs, keep, f)| == Kept(xs, keep)
    decreases |xs|
  {
    if xs != [] {
      FilterMapLength(xs[1..], keep, f);
    }
  }

  /** Filtering and mapping a concatenation works part by part. */
  lemma {:induction false} FilterMapAppend<T, U>(xs: seq<T>, ys: seq<T>, keep: T -> bool, f: T -> U)
    ensures FilterMap(xs + ys, keep, f) == FilterMap(xs, keep, f) + FilterMap(ys, keep, f)
    ensures Kept(xs + ys, keep) == Kept(xs, keep) + Kept(ys, keep)
    decreases |xs|
  {
    if xs != [] {
      assert (xs + ys)[1..] == xs[1..] + ys;
      FilterMapAppend(xs[1..], ys, keep, f);
    } else {
      assert xs + ys == ys;
    }
  }

  /** A kept element appears, mapped, at the position that counts the kept
      elements before it: the output keeps the input order. */
  lemma FilterMapAt<T, U>(xs: seq<T>, keep: T -> bool, f: T -> U, k: nat)
    requires k < |xs| && keep(xs[k])
    ensures Kept(xs[..k], keep) < |FilterMap(xs, keep, f)|
    ensures FilterMap(xs, keep, f)[Kept(xs[..k], keep)] == f(xs[k])
  {
    assert xs == xs[..k] + ([xs[k]] + xs[k + 1..]);
    FilterMapAppend(xs[..k], [xs[k]] + xs[k + 1..], keep, f);
    FilterMapAppend([xs[k]], xs[k + 1..], keep, f);
    FilterMapLength(xs[..k], keep, f);
  }

  /** Every output element is the image of a kept input element. */
  lemma {:induction false} FilterMapFrom<T, U>(xs: seq<T>, keep: T -> bool, f: T -> U, j: nat)
    requires j < |FilterMap(xs, keep, f)|
    ensures exists k :: 0 <= k < |xs| && keep(xs[k]) && FilterMap(xs, keep, f)[j] == f(xs[k])
    decreases |xs|
  {
    var rest := FilterMap(xs[1..], keep, f);
    if keep(xs[0]) {
      if j == 0 {
        assert keep(xs[0]) && FilterMap(xs, keep, f)[j] == f(xs[0]);
      } else {
        FilterMapFrom(xs[1..], keep, f, j - 1);
        var k :| 0 <= k < |xs[1..]| && keep(xs[1..][k]) && rest[j - 1] == f(xs[1..][k]);
        assert xs[k + 1] == xs[1..][k];
      }
    } else {
      FilterMapFrom(xs[1..], keep, f, j);
      var k :| 0 <= k < |xs[1..]| && keep(xs[1..][k]) && rest[j] == f(xs[1..][k]);
      assert xs[k + 1] == xs[1..][k];
    }
  }

  /** Two filters that keep no element in common keep at most all of them. */
  lemma {:induction false} KeptDisjoint<T>(xs: seq<T>, p: T -> bool, q: T -> bool)
    requires forall x :: !(p(x) && q(x))
    ensures Kept(xs, p) + Kept(xs, q) <= |xs|
    decreases |xs|
  {
    if xs != [] {
      KeptDisjoint(xs[1..], p, q);
    }
  }

  /** A filter that keeps no element keeps nothing. */
  lemma {:induction false} KeptNone<T>(xs: seq<T>, keep: T -> bool)
    requires forall k :: 0 <= k < |xs| ==> !keep(xs[k])
    ensures Kept(xs, keep) == 0
    decreases |xs|
  {
    if xs != [] {
      assert forall k :: 0 <= k < |xs[1..]| ==> xs[1..][k] == xs[k + 1];
      KeptNone(xs[1..], keep);
    }
  }

  /** `extractDevices(thingList)`: the items of type 1 or 2, in order, as
      their data marked with whether they are shared. */
  function ExtractDevices(things: seq<ThingItem>): (r: seq<Value>)
    ensures |r| == Kept(things, IsDevice)
    ensures forall j :: 0 <= j < |r| ==> r[j].Obj? && "isShared" in r[j].fields
  {
    FilterMapLength(things, IsDevice, DeviceRecord);
    var r := FilterMap(things, IsDevice, DeviceRecord);
    assert forall j :: 0 <= j < |r| ==> r[j].Obj? && "isShared" in r[j].fields by {
      forall j | 0 <= j < |r| ensures r[j].Obj? && "isShared" in r[j].fields {
        FilterMapFrom(things, IsDevice, DeviceRecord, j);
      }
    }
    r
  }

  /** `extractGroups(thingList)`: the data of the items of type 3, in order. */
  function ExtractGroups(things: seq<ThingItem>): (r: seq<Value>)
    ensures |r| == Kept(things, IsGroup)
  {
    FilterMapLength(things, IsGroup, GroupRecord);
    FilterMap(things, IsGroup, GroupRecord)
  }

  /** Each device item appears in the output at the position that counts the
      devices before it, as its data with `isShared` set from its type. */
  lemma ExtractDevicesAt(things: seq<ThingItem>, k: nat)
    requires k < |things| && IsDevice(things[k])
    ensures Kept(things[..k], IsDevice) < |ExtractDevices(things)|
    ensures ExtractDevices(things)[Kept(things[..k], IsDevice)] == DeviceRecord(things[k])
  {
    FilterMapAt(things, IsDevice, DeviceRecord, k);
  }

  /** Each output device comes from an item of type 1 or 2. */
  lemma ExtractDevicesFrom(things: seq<ThingItem>, j: nat)
    requires j < |ExtractDevices(things)|
    ensures exists k :: 0 <= k < |things| && IsDevice(things[k]) && ExtractDevices(things)[j] == DeviceRecord(things[k])
  {
    FilterMapFrom(things, IsDevice, DeviceRecord, j);
  }

  /** Each group item's data appears unchanged at the position that counts
      the groups before it. */
  lemma ExtractGroupsAt(things: seq<ThingItem>, k: nat)
    requires k < |things| && IsGroup(things[k])
    ensures Kept(things[..k], IsGroup) < |ExtractGroups(things)|
    ensures ExtractGroups(things)[Kept(things[..k], IsGroup)] == things[k].itemData
  {
    FilterMapAt(things, IsGroup, GroupRecord, k);
  }

  /** Each output group is the data of an item of type 3. */
  lemma ExtractGroupsFrom(things: seq<ThingItem>, j: nat)
    requires j < |ExtractGroups(things)|
    ensures exists k :: 0 <= k < |things| && IsGroup(things[k]) && ExtractGroups(things)[j] == things[k].itemData
  {
    FilterMapFrom(things, IsGroup, GroupRecord, j);
  }

  /** No item is both a device and a group, items of other types are in
      neither output, so together the outputs are never longer than the list. */
  lemma DevicesAndGroupsPartition(things: seq<ThingItem>)
    ensures |ExtractDevices(things)| + |ExtractGroups(things)| <= |things|
    ensures forall item :: !(IsDevice(item) && IsGroup(item))
  {
    KeptDisjoint(things, IsDevice, IsGroup);
  }

  /** The extractors work item by item: a longer list adds its new items' outputs at the end. */
  lemma ExtractAppend(xs: seq<ThingItem>, ys: seq<ThingItem>)
    ensures ExtractDevices(xs + ys) == ExtractDevices(xs) + ExtractDevices(ys)
    ensures ExtractGroups(xs + ys) == ExtractGroups(xs) + ExtractGroups(ys)
  {
    FilterMapAppend(xs, ys, IsDevice, DeviceRecord);
    FilterMapAppend(xs, ys, IsGroup, GroupRecord);
  }

  /** The `thingList` argument as the filters see it: `thingList.filter` of
      anything but an array is a TypeError, and so is reading `itemType` of a
      `null` or `undefined` element. */
  function ThingItems(thingList: Value): (r: Result<seq<ThingItem>, string>)
    ensures !thingList.Arr? ==> r == Failure("thingList.filter is not a function")
    ensures thingList.Arr? && r.Success? ==> |r.value| == |thingList.elems|
    ensures thingList.Arr? && r.Success? ==> forall k :: 0 <= k < |r.value| ==>
              r.value[k] == ThingItem(Get(thingList.elems[k], "itemType"), Get(thingList.elems[k], "itemData"))
  {
    if !thingList.Arr? then Failure("thingList.filter is not a function")
    else ItemsOf(thingList.elems)
  }

  function ItemsOf(elems: seq<Value>): (r: Result<seq<ThingItem>, string>)
    ensures r.Success? <==> forall k :: 0 <= k < |elems| ==> !elems[k].Undefined? && !elems[k].Null?
    ensures r.Success? ==> |r.value| == |elems| && forall k :: 0 <= k < |r.value| ==>
              r.value[k] == ThingItem(Get(elems[k], "itemType"), Get(elems[k], "itemData"))
    decreases |elems|
  {
    if elems == [] then Success([])
    else
      var itemType :- Member(elems[0], "itemType");
      var rest :- ItemsOf(elems[1..]);
      assert forall k :: 1 <= k < |elems| ==> elems[k] == elems[1..][k - 1];
      Success([ThingItem(itemType, Get(elems[0], "itemData"))] + rest)
  }
}
