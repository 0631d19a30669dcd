/** The patch-file translator: turns a generated layout (its game patches) and
    the decoded game description into the records a native patcher reads:
    the spawn point, one pickup record per pickup index, the elevators and a
    few fixed patch flags. */
module PatcherFile {

  import opened GameDescription
  import opened Layout
  import opened Formatting

  // ---------------------------------------------------------------------
  // Output records (the JSON objects of the patch file)
  // ---------------------------------------------------------------------

  /** `{"index": ..., "amount": ...}` */
  datatype ResourceAmount = ResourceAmount(index: int, amount: int)

  /** One entry of a pickup's `conditional_resources`. */
  datatype ConditionalRecord = ConditionalRecord(item: int, resources: seq<ResourceAmount>)

  datatype PickupRecord = PickupRecord(
    pickupIndex: int,
    modelIndex: int,
    scan: string,
    hudText: seq<string>,
    soundIndex: int,
    jingleIndex: int,
    resources: seq<ResourceAmount>,
    conditionalResources: seq<ConditionalRecord>)

  /** The `spawn_point` field; `location` stands for `starting_location.as_json`. */
  datatype SpawnPoint = SpawnPoint(location: AreaLocation, amount: seq<ResourceAmount>, capacity: seq<ResourceAmount>)

  /** One entry of the `elevators` field; the locations stand for their `as_json`. */
  datatype ElevatorRecord = ElevatorRecord(
    instanceId: int,
    originLocation: AreaLocation,
    targetLocation: AreaLocation,
    roomName: string)

  datatype SpecificPatches = SpecificPatches(
    hiveChamberBPostState: bool,
    introInPostState: bool,
    warpToStart: bool,
    speedUpCredits: bool,
    disableHudPopup: bool)

  /** The whole patch file. The first three fields are one-element tuples in
      the output, so they are one-element sequences here. */
  datatype PatcherFileRecord = PatcherFileRecord(
    permalink: seq<string>,
    seedHash: seq<string>,
    randovaniaVersion: seq<string>,
    spawnPoint: SpawnPoint,
    pickups: seq<PickupRecord>,
    elevators: seq<ElevatorRecord>,
    specificPatches: SpecificPatches)

  // ---------------------------------------------------------------------
  // Initial-item accumulation
  // ---------------------------------------------------------------------

  /** The item resources that occur in `gain`. */
  function ItemsIn(gain: ResourceGain): (items: set<Resource>)
    ensures forall r :: r in items <==> IsItem(r) && exists j :: 0 <= j < |gain| && gain[j].0 == r
  {
    if |gain| == 0 then {}
    else
      var last := gain[|gain| - 1];
      var init := ItemsIn(gain[..|gain| - 1]);
      assert forall j :: 0 <= j < |gain| - 1 ==> gain[..|gain| - 1][j] == gain[j];
      if IsItem(last.0) then init + {last.0} else init
  }

  /** Reference definition: the total quantity of `r` that `gain` grants,
      counting only ITEM resources. */
  function GainedQuantity(gain: ResourceGain, r: Resource): (q: int)
    ensures r !in ItemsIn(gain) ==> q == 0
  {
    if |gain| == 0 then 0
    else
      var last := gain[|gain| - 1];
      GainedQuantity(gain[..|gain| - 1], r) + (if last.0 == r && IsItem(r) then last.1 else 0)
  }

  /** A mutable `Dict[SimpleResourceInfo, int]`. */
  class ResourceQuantityDict {
    var entries: map<Resource, int>

    constructor ()
      ensures entries == map[]
    {
      entries := map[];
    }
  }

  function GetOrZero(m: map<Resource, int>, r: Resource): int {
    if r in m then m[r] else 0
  }

  /** `_add_items_in_resource_gain_to_dict`: every ITEM resource of `gain`
      ends up as a key, holding its old value (0 when absent) plus all the
      quantities `gain` grants for it; other keys keep their value. */
  method AddItemsInResourceGainToDict(gain: ResourceGain, target: ResourceQuantityDict)
    modifies target
    ensures target.entries.Keys == old(target.entries.Keys) + ItemsIn(gain)
    ensures forall r :: r in target.entries ==>
      target.entries[r] == GetOrZero(old(target.entries), r) + GainedQuantity(gain, r)
  {
    var i := 0;
    while i < |gain|
      invariant 0 <= i <= |gain|
      invariant target.entries.Keys == old(target.entries.Keys) + ItemsIn(gain[..i])
      invariant forall r :: r in target.entries ==>
        target.entries[r] == GetOrZero(old(target.entries), r) + GainedQuantity(gain[..i], r)
    {
      var (resource, quantity) := gain[i];
      assert gain[..i + 1][..i] == gain[..i];
      if resource.resourceType == Item {
        target.entries := target.entries[resource := GetOrZero(target.entries, resource) + quantity];
      }
      i := i + 1;
    }
    assert gain[..i] == gain;
  }

  // ---------------------------------------------------------------------
  // Spawn point
  // ---------------------------------------------------------------------

  /** Reference definition of the `spawn_point` field: one entry per item of
      the resource database, holding the quantity the initial items grant. */
  function SpawnPointOf(patches: GamePatches, resourceDatabase: ResourceDatabase): SpawnPoint
  {
    var items := resourceDatabase.item;
    var capacities := seq(|items|, i requires 0 <= i < |items| =>
      ResourceAmount(items[i].index, GainedQuantity(patches.extraInitialItems, items[i])));
    SpawnPoint(patches.startingLocation, capacities, capacities)
  }

  /** `_create_spawn_point_field`: accumulates the extra initial items into a
      fresh dictionary and lists, per database item and in database order,
      the accumulated quantity or 0. */
  method CreateSpawnPointField(patches: GamePatches, resourceDatabase: ResourceDatabase) returns (r: SpawnPoint)
    ensures r.location == patches.startingLocation
    ensures r.amount == r.capacity
    ensures |r.amount| == |resourceDatabase.item|
    ensures forall i :: 0 <= i < |r.amount| ==>
      r.amount[i].index == resourceDatabase.item[i].index &&
      r.amount[i].amount == GainedQuantity(patches.extraInitialItems, resourceDatabase.item[i])
    ensures r == SpawnPointOf(patches, resourceDatabase)
  {
    var itemQuantities := new ResourceQuantityDict();
    AddItemsInResourceGainToDict(patches.extraInitialItems, itemQuantities);
    var quantities := itemQuantities.entries;
    var items := resourceDatabase.item;
    var capacities := seq(|items|, i requires 0 <= i < |items| =>
      ResourceAmount(items[i].index, GetOrZero(quantities, items[i])));
    r := SpawnPoint(patches.startingLocation, capacities, capacities);
  }

  // ---------------------------------------------------------------------
  // Pickups
  // ---------------------------------------------------------------------

  /** `_item_category_to_jingle_index` */
  const ItemCategoryToJingleIndex: map<string, int> :=
    map["major" := 1, "translator" := 1, "temple_key" := 2, "sky_temple_key" := 2]

  /** The `jingle_index` of a pickup: the table entry of its category, or 0. */
  function JingleIndex(itemCategory: string): (j: int)
    ensures j == 0 || j == 1 || j == 2
    ensures j == 1 <==> itemCategory == "major" || itemCategory == "translator"
    ensures j == 2 <==> itemCategory == "temple_key" || itemCategory == "sky_temple_key"
  {
    if itemCategory in ItemCategoryToJingleIndex then ItemCategoryToJingleIndex[itemCategory] else 0
  }

  /** The `sound_index` of a pickup: 1 exactly for the two key categories,
      which are also exactly the categories with the key jingle. */
  function SoundIndex(itemCategory: string): (s: int)
    ensures s == 0 || s == 1
    ensures s == 1 <==> itemCategory == "temple_key" || itemCategory == "sky_temple_key"
    ensures s == 1 <==> JingleIndex(itemCategory) == 2
  {
    if itemCategory in {"temple_key", "sky_temple_key"} then 1 else 0
  }

  /** The "quantity long_name" texts of a resource list, in order. */
  function ScanParts(resources: ResourceGain): (parts: seq<string>)
    ensures |parts| == |resources|
    ensures forall k :: 0 <= k < |resources| ==>
      parts[k] == IntToDecimal(resources[k].1) + " " + resources[k].0.longName
  {
    if |resources| == 0 then []
    else [IntToDecimal(resources[0].1) + " " + resources[0].0.longName] + ScanParts(resources[1..])
  }

  /** `_pickup_scan`: the name, followed for expansions by what they provide. */
  function PickupScan(pickup: PickupEntry): (text: string)
    ensures pickup.name <= text
    ensures pickup.itemCategory != "expansion" ==> text == pickup.name
    ensures pickup.itemCategory == "expansion" ==>
      text == pickup.name + " that provides " + Join(", ", ScanParts(pickup.resources))
  {
    if pickup.itemCategory != "expansion" then pickup.name
    else pickup.name + " that provides " + Join(", ", ScanParts(pickup.resources))
  }

  predicate IsGrantedItem(entry: (Resource, int)) {
    entry.1 > 0 && IsItem(entry.0)
  }

  /** The `resources` list of a pickup or a conditional: the ITEM entries
      with a positive quantity, as (index, amount), in their original order. */
  function ItemAmounts(gain: ResourceGain): (amounts: seq<ResourceAmount>)
    ensures |amounts| <= |gain|
    ensures forall k :: 0 <= k < |amounts| ==> amounts[k].amount > 0
    ensures forall a :: a in amounts <==>
      exists j :: 0 <= j < |gain| && IsGrantedItem(gain[j]) && a == ResourceAmount(gain[j].0.index, gain[j].1)
  {
    if |gain| == 0 then []
    else
      var tail := ItemAmounts(gain[1..]);
      assert forall j :: 1 <= j < |gain| ==> gain[1..][j - 1] == gain[j];
      if IsGrantedItem(gain[0]) then [ResourceAmount(gain[0].0.index, gain[0].1)] + tail else tail
  }

  /** Filtering works piece by piece: the result for a concatenation is the
      concatenation of the results, so the original order is kept. */
  lemma {:induction false} ItemAmountsAppend(a: ResourceGain, b: ResourceGain)
    ensures ItemAmounts(a + b) == ItemAmounts(a) + ItemAmounts(b)
  {
    if |a| > 0 {
      assert (a + b)[1..] == a[1..] + b;
      ItemAmountsAppend(a[1..], b);
    } else {
      assert a + b == b;
    }
  }

  function ConditionalRecordOf(conditional: ConditionalResources): ConditionalRecord {
    ConditionalRecord(conditional.item.index, ItemAmounts(conditional.resources))
  }

  function HudText(pickup: PickupEntry): string {
    pickup.name + " acquired!"
  }

  /** Reference definition of the record `_create_pickup` builds. */
  function PickupRecordOf(originalIndex: PickupIndex, pickup: PickupEntry): PickupRecord
  {
    var conditionals := pickup.conditionalResources;
    PickupRecord(
      originalIndex.index,
      pickup.modelIndex,
      PickupScan(pickup),
      seq(1 + |conditionals|, _ => HudText(pickup)),
      SoundIndex(pickup.itemCategory),
      JingleIndex(pickup.itemCategory),
      ItemAmounts(pickup.resources),
      seq(|conditionals|, k requires 0 <= k < |conditionals| => ConditionalRecordOf(conditionals[k])))
  }

  /** `_create_pickup`: one HUD text for the pickup and one more per
      conditional, all reading "<name> acquired!"; one conditional record per
      conditional, in order, carrying its item's index and its filtered
      resources. */
  method CreatePickup(originalIndex: PickupIndex, pickup: PickupEntry) returns (r: PickupRecord)
    ensures r.pickupIndex == originalIndex.index
    ensures r.modelIndex == pickup.modelIndex
    ensures r.scan == PickupScan(pickup)
    ensures |r.hudText| == 1 + |pickup.conditionalResources|
    ensures forall k :: 0 <= k < |r.hudText| ==> r.hudText[k] == pickup.name + " acquired!"
    ensures r.soundIndex == SoundIndex(pickup.itemCategory)
    ensures r.jingleIndex == JingleIndex(pickup.itemCategory)
    ensures r.resources == ItemAmounts(pickup.resources)
    ensures |r.conditionalResources| == |pickup.conditionalResources|
    ensures forall k :: 0 <= k < |r.conditionalResources| ==>
      r.conditionalResources[k].item == pickup.conditionalResources[k].item.index &&
      r.conditionalResources[k].resources == ItemAmounts(pickup.conditionalResources[k].resources)
    ensures r == PickupRecordOf(originalIndex, pickup)
  {
    var hudText := [HudText(pickup)];
    var conditionalResources := [];
    var conditionals := pickup.conditionalResources;
    var i := 0;
    while i < |conditionals|
      invariant 0 <= i <= |conditionals|
      invariant |hudText| == 1 + i
      invariant forall k :: 0 <= k < |hudText| ==> hudText[k] == HudText(pickup)
      invariant |conditionalResources| == i
      invariant forall k :: 0 <= k < i ==> conditionalResources[k] == ConditionalRecordOf(conditionals[k])
    {
      var conditional := conditionals[i];
      hudText := hudText + [HudText(pickup)];
      conditionalResources := conditionalResources + [ConditionalRecord(conditional.item.index, ItemAmounts(conditional.resources))];
      i := i + 1;
    }
    r := PickupRecord(
      originalIndex.index,
      pickup.modelIndex,
      PickupScan(pickup),
      hudText,
      if pickup.itemCategory in {"temple_key", "sky_temple_key"} then 1 else 0,
      JingleIndex(pickup.itemCategory),
      ItemAmounts(pickup.resources),
      conditionalResources);
  }

  /** The pickup placed at `index`, or the useless pickup when none is. */
  function AssignedPickup(patches: GamePatches, uselessPickup: PickupEntry, index: int): PickupEntry {
    if PickupIndex(index) in patches.pickupAssignment then patches.pickupAssignment[PickupIndex(index)] else uselessPickup
  }

  /** `_create_pickup_list`: one record per index of `range(pickup_count)`
      (none when the count is negative), record i built for index i. */
  function CreatePickupList(patches: GamePatches, uselessPickup: PickupEntry, pickupCount: int): (pickups: seq<PickupRecord>)
    ensures |pickups| == if pickupCount < 0 then 0 else pickupCount
    ensures forall i :: 0 <= i < |pickups| ==> pickups[i].pickupIndex == i
  {
    var count := if pickupCount < 0 then 0 else pickupCount;
    seq(count, i => PickupRecordOf(PickupIndex(i), AssignedPickup(patches, uselessPickup, i)))
  }

  /** Entry i of the pickup list describes the pickup assigned to index i, or
      the useless pickup when index i is unassigned. */
  lemma PickupListEntry(patches: GamePatches, uselessPickup: PickupEntry, pickupCount: int, i: int)
    requires 0 <= i < pickupCount
    ensures var pickup := if PickupIndex(i) in patches.pickupAssignment
                          then patches.pickupAssignment[PickupIndex(i)] else uselessPickup;
            var record := CreatePickupList(patches, uselessPickup, pickupCount)[i];
            && record == PickupRecordOf(PickupIndex(i), pickup)
            && record.scan == PickupScan(pickup)
            && record.modelIndex == pickup.modelIndex
            && record.resources == ItemAmounts(pickup.resources)
            && |record.hudText| == 1 + |pickup.conditionalResources|
            && (forall k :: 0 <= k < |record.hudText| ==> record.hudText[k] == pickup.name + " acquired!")
            && record.soundIndex == SoundIndex(pickup.itemCategory)
            && record.jingleIndex == JingleIndex(pickup.itemCategory)
            && |record.conditionalResources| == |pickup.conditionalResources|
            && (forall k :: 0 <= k < |record.conditionalResources| ==>
                  record.conditionalResources[k].item == pickup.conditionalResources[k].item.index &&
                  record.conditionalResources[k].resources == ItemAmounts(pickup.conditionalResources[k].resources))
  {
  }

  /** Placing a pickup at one index changes the record of that index only. */
  lemma PickupListReassign(patches: GamePatches, uselessPickup: PickupEntry, pickupCount: int, i: int, pickup: PickupEntry)
    requires 0 <= i < pickupCount
    ensures var before := CreatePickupList(patches, uselessPickup, pickupCount);
            var patched := patches.(pickupAssignment := patches.pickupAssignment[PickupIndex(i) := pickup]);
            var after := CreatePickupList(patched, uselessPickup, pickupCount);
            && |after| == |before|
            && after[i] == PickupRecordOf(PickupIndex(i), pickup)
            && forall k :: 0 <= k < |after| && k != i ==> after[k] == before[k]
  {
  }

  /** Assignments to indices outside `range(pickup_count)` are ignored. */
  lemma PickupListIgnoresOutOfRange(patches: GamePatches, uselessPickup: PickupEntry, pickupCount: int, j: int, pickup: PickupEntry)
    requires j < 0 || pickupCount <= j
    ensures var patched := patches.(pickupAssignment := patches.pickupAssignment[PickupIndex(j) := pickup]);
            CreatePickupList(patched, uselessPickup, pickupCount) == CreatePickupList(patches, uselessPickup, pickupCount)
  {
  }

  // ---------------------------------------------------------------------
  // Elevators
  // ---------------------------------------------------------------------

  /** `_CUSTOM_NAMES_FOR_ELEVATORS`, keyed by area asset id. */
  const CustomNamesForElevators: map<int, string> := map[
    1660916974 := "Temple Grounds - Agon",
    2889020216 := "Temple Grounds - Torvus",
    3455543403 := "Temple Grounds - Sanctuary",
    1473133138 := "Agon Wastes Entrance",
    2806956034 := "Agon Wastes - Torvus",
    3331021649 := "Agon Wastes - Sanctuary",
    1868895730 := "Torvus Bog Entrance",
    3479543630 := "Torvus Bog - Agon",
    3205424168 := "Torvus Bog - Sanctuary",
    3528156989 := "Sanctuary Fortress Entrance",
    900285955 := "Sanctuary Fortress - Agon",
    3145160350 := "Sanctuary Fortress - Torvus"
  ]

  /** `_pretty_name_for_elevator`: the custom name of the target area when
      the table has one, else "<world name> - <area name>". */
  function PrettyNameForElevator(worldList: WorldList, connection: AreaLocation): (name: string)
    ensures connection.areaAssetId in CustomNamesForElevators ==>
      name == CustomNamesForElevators[connection.areaAssetId]
    ensures connection.areaAssetId !in CustomNamesForElevators ==>
      name == worldList.worldName(connection) + " - " + worldList.areaName(connection)
  {
    if connection.areaAssetId in CustomNamesForElevators then CustomNamesForElevators[connection.areaAssetId]
    else worldList.worldName(connection) + " - " + worldList.areaName(connection)
  }

  /** The custom elevator names are pairwise different, so a custom room name
      tells which area the elevator leads to. */
  lemma CustomNamesAreDistinct(a: int, b: int)
    requires a in CustomNamesForElevators && b in CustomNamesForElevators
    requires CustomNamesForElevators[a] == CustomNamesForElevators[b]
    ensures a == b
  {
  }

  predicate IsTeleporterWithId(node: Node, instanceId: int) {
    node.TeleporterNode? && node.teleporterInstanceId == instanceId
  }

  /** Node `j` is the last teleporter node of `nodes` with that instance id. */
  predicate IsLastTeleporterWithId(nodes: seq<Node>, j: int, instanceId: int) {
    && 0 <= j < |nodes|
    && IsTeleporterWithId(nodes[j], instanceId)
    && forall k :: j < k < |nodes| ==> !IsTeleporterWithId(nodes[k], instanceId)
  }

  /** `nodes_by_teleporter_id`: every teleporter node of `nodes` under its
      instance id; when two share an id, the later one overwrites it. */
  function NodesByTeleporterId(nodes: seq<Node>): map<int, Node>
  {
    if |nodes| == 0 then map[]
    else
      var last := nodes[|nodes| - 1];
      var byInit := NodesByTeleporterId(nodes[..|nodes| - 1]);
      if last.TeleporterNode? then byInit[last.teleporterInstanceId := last] else byInit
  }

  /** An instance id is a key exactly when some node is a teleporter with that id. */
  lemma {:induction false} NodesByTeleporterIdKeys(nodes: seq<Node>, instanceId: int)
    ensures instanceId in NodesByTeleporterId(nodes) <==>
      exists j :: 0 <= j < |nodes| && IsTeleporterWithId(nodes[j], instanceId)
  {
    if |nodes| > 0 {
      var init := nodes[..|nodes| - 1];
      NodesByTeleporterIdKeys(init, instanceId);
      assert forall j :: 0 <= j < |init| ==> init[j] == nodes[j];
    }
  }

  /** The position of the last teleporter node with `instanceId`, or -1. */
  function LastTeleporterIndex(nodes: seq<Node>, instanceId: int): int
  {
    if |nodes| == 0 then -1
    else if IsTeleporterWithId(nodes[|nodes| - 1], instanceId) then |nodes| - 1
    else LastTeleporterIndex(nodes[..|nodes| - 1], instanceId)
  }

  /** The node stored under an id is the last teleporter node with that id. */
  lemma {:induction false} NodesByTeleporterIdLastWins(nodes: seq<Node>, instanceId: int)
    requires instanceId in NodesByTeleporterId(nodes)
    ensures var j := LastTeleporterIndex(nodes, instanceId);
            IsLastTeleporterWithId(nodes, j, instanceId) && nodes[j] == NodesByTeleporterId(nodes)[instanceId]
  {
    var n := |nodes|;
    if !IsTeleporterWithId(nodes[n - 1], instanceId) {
      var init := nodes[..n - 1];
      assert instanceId in NodesByTeleporterId(init);
      NodesByTeleporterIdLastWins(init, instanceId);
      var j := LastTeleporterIndex(init, instanceId);
      assert nodes[j] == init[j];
      assert forall k :: j < k < n - 1 ==> nodes[k] == init[k];
    }
  }

  /** Every connected instance id has a teleporter node (the dictionary
      lookup on it never fails). */
  predicate ConnectionsHaveTeleporters(patches: GamePatches, worldList: WorldList) {
    forall k :: 0 <= k < |patches.elevatorConnection| ==>
      exists j :: 0 <= j < |worldList.allNodes| &&
        IsTeleporterWithId(worldList.allNodes[j], patches.elevatorConnection[k].0)
  }

  /** `_create_elevators_field`: one record per elevator connection, in the
      connection order. */
  function CreateElevatorsField(patches: GamePatches, worldList: WorldList): (elevators: seq<ElevatorRecord>)
    requires ConnectionsHaveTeleporters(patches, worldList)
    ensures |elevators| == |patches.elevatorConnection|
    ensures forall k :: 0 <= k < |elevators| ==>
      var (instanceId, connection) := patches.elevatorConnection[k];
      && elevators[k].instanceId == instanceId
      && elevators[k].targetLocation == connection
      && elevators[k].roomName == "Transport to " + PrettyNameForElevator(worldList, connection)
      && exists j :: IsLastTeleporterWithId(worldList.allNodes, j, instanceId)
           && elevators[k].originLocation == worldList.nodeToAreaLocation(worldList.allNodes[j])
  {
    var byId := NodesByTeleporterId(worldList.allNodes);
    var connections := patches.elevatorConnection;
    assert forall k :: 0 <= k < |connections| ==> connections[k].0 in byId by {
      forall k | 0 <= k < |connections|
        ensures connections[k].0 in byId
      {
        NodesByTeleporterIdKeys(worldList.allNodes, connections[k].0);
      }
    }
    assert forall id :: id in byId ==>
      exists j :: IsLastTeleporterWithId(worldList.allNodes, j, id) && worldList.allNodes[j] == byId[id] by {
      forall id | id in byId
        ensures exists j :: IsLastTeleporterWithId(worldList.allNodes, j, id) && worldList.allNodes[j] == byId[id]
      {
        NodesByTeleporterIdLastWins(worldList.allNodes, id);
        var j := LastTeleporterIndex(worldList.allNodes, id);
        assert IsLastTeleporterWithId(worldList.allNodes, j, id) && worldList.allNodes[j] == byId[id];
      }
    }
    seq(|connections|, k requires 0 <= k < |connections| =>
      ElevatorRecord(
        connections[k].0,
        worldList.nodeToAreaLocation(byId[connections[k].0]),
        connections[k].1,
        "Transport to " + PrettyNameForElevator(worldList, connections[k].1)))
  }

  // ---------------------------------------------------------------------
  // The patch file
  // ---------------------------------------------------------------------

  /** `create_patcher_file`. `game` is what decoding the layout's game data
      yields and `version` is the program version string; both come from
      outside the translator. */
  method CreatePatcherFile(description: LayoutDescription, cosmeticPatches: CosmeticPatches,
                           game: GameDescriptionData, version: string) returns (r: PatcherFileRecord)
    requires ConnectionsHaveTeleporters(description.patches, game.worldList)
    ensures r.permalink == [description.permalink.asStr]
    ensures r.seedHash == [description.shareableHash]
    ensures r.randovaniaVersion == [version]
    ensures r.spawnPoint == SpawnPointOf(description.patches, game.resourceDatabase)
    ensures r.pickups == CreatePickupList(description.patches, game.pickupDatabase.uselessPickup,
                                          game.pickupDatabase.totalPickupCount)
    ensures r.elevators == CreateElevatorsField(description.patches, game.worldList)
    ensures r.specificPatches.hiveChamberBPostState && r.specificPatches.introInPostState
    ensures r.specificPatches.warpToStart == description.permalink.patcherConfiguration.warpToStart
    ensures r.specificPatches.speedUpCredits == cosmeticPatches.speedUpCredits
    ensures r.specificPatches.disableHudPopup == cosmeticPatches.disableHudPopup
  {
    var patcherConfig := description.permalink.patcherConfiguration;
    var patches := description.patches;
    var spawnPoint := CreateSpawnPointField(patches, game.resourceDatabase);
    var pickups := CreatePickupList(patches, game.pickupDatabase.uselessPickup, game.pickupDatabase.totalPickupCount);
    var elevators := CreateElevatorsField(patches, game.worldList);
    var specificPatches := SpecificPatches(
      true,
      true,
      patcherConfig.warpToStart,
      cosmeticPatches.speedUpCredits,
      cosmeticPatches.disableHudPopup);
    r := PatcherFileRecord(
      [description.permalink.asStr],
      [description.shareableHash],
      [version],
      spawnPoint,
      pickups,
      elevators,
      specificPatches);
  }

  /** The start settings of the original game: at the ship, with the
      vanilla item loss. */
  function WithVanillaStart(configuration: LayoutConfiguration): LayoutConfiguration {
    configuration.(startingLocation := StartingLocation(Ship),
                   startingResources := StartingResources(VanillaItemLossEnabled))
  }

  /** `is_vanilla_starting_location`: true exactly when the configuration
      already has the vanilla start settings, whatever its other settings. */
  predicate IsVanillaStartingLocation(configuration: LayoutConfiguration): (vanilla: bool)
    ensures vanilla <==> configuration == WithVanillaStart(configuration)
  {
    && configuration.startingLocation.configuration == Ship
    && configuration.startingResources.configuration == VanillaItemLossEnabled
  }
}
