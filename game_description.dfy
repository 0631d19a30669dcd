/** The game-description types that the patch-file translator reads.

    Only the fields the translator touches are kept. Lookups that the
    repository performs through a `WorldList` object are given as
    function-valued fields, so that every lookup is a total function
    chosen by the caller.
 */
module GameDescription {

  /** `ResourceType`: the translator only ever asks whether a resource is an
      ITEM, so every other enumerator is folded into `NonItem`. */
  datatype ResourceType = Item | NonItem(name: string)

  /** `SimpleResourceInfo`: compared by value, like the named tuple it is. */
  datatype Resource = Resource(index: int, longName: string, shortName: string, resourceType: ResourceType)

  predicate IsItem(r: Resource) {
    r.resourceType == Item
  }

  /** `ResourceGain`: the (resource, quantity) pairs, in iteration order. */
  type ResourceGain = seq<(Resource, int)>

  /** `ConditionalResources`: resources granted instead when `item` is already held. */
  datatype ConditionalResources = ConditionalResources(name: string, item: Resource, resources: ResourceGain)

  datatype PickupEntry = PickupEntry(
    name: string,
    resources: ResourceGain,
    modelIndex: int,
    conditionalResources: seq<ConditionalResources>,
    itemCategory: string)

  datatype PickupIndex = PickupIndex(index: int)

  /** `AreaLocation`: a world asset id and an area asset id. */
  datatype AreaLocation = AreaLocation(worldAssetId: int, areaAssetId: int)

  /** A node of the world graph; only teleporter nodes carry an instance id. */
  datatype Node =
    | TeleporterNode(name: string, teleporterInstanceId: int)
    | OtherNode(name: string)

  /** `WorldList`: `all_nodes` in iteration order, `node_to_area_location`,
      and the names reached through `world_by_area_location(loc).name` and
      `world.area_by_asset_id(loc.area_asset_id).name`. */
  datatype WorldList = WorldList(
    allNodes: seq<Node>,
    nodeToAreaLocation: Node -> AreaLocation,
    worldName: AreaLocation -> string,
    areaName: AreaLocation -> string)

  /** `ResourceDatabase`: only its `item` list is read. */
  datatype ResourceDatabase = ResourceDatabase(item: seq<Resource>)

  datatype PickupDatabase = PickupDatabase(uselessPickup: PickupEntry, totalPickupCount: int)

  /** The decoded game data: what `data_reader.decode_data` returns. */
  datatype GameDescriptionData = GameDescriptionData(
    resourceDatabase: ResourceDatabase,
    pickupDatabase: PickupDatabase,
    worldList: WorldList)

  /** `GamePatches`. `elevatorConnection` is the items of a dictionary in its
      insertion order. */
  datatype GamePatches = GamePatches(
    pickupAssignment: map<PickupIndex, PickupEntry>,
    elevatorConnection: seq<(int, AreaLocation)>,
    startingLocation: AreaLocation,
    extraInitialItems: ResourceGain)
}
