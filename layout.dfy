/** The parts of a layout configuration that the patch-file translator reads. */
module Layout {

  import opened GameDescription

  /** `StartingLocationConfiguration`: only SHIP is distinguished. */
  datatype StartingLocationConfiguration = Ship | OtherLocationConfiguration(name: string)

  /** `StartingResourcesConfiguration`: only VANILLA_ITEM_LOSS_ENABLED is distinguished. */
  datatype StartingResourcesConfiguration = VanillaItemLossEnabled | OtherResourcesConfiguration(name: string)

  datatype StartingLocation = StartingLocation(configuration: StartingLocationConfiguration)

  datatype StartingResources = StartingResources(configuration: StartingResourcesConfiguration)

  /** `LayoutConfiguration`. The enumerated settings the translator never
      reads are kept as the names of their enumerators; the pickup
      quantities are not part of this model. */
  datatype LayoutConfiguration = LayoutConfiguration(
    trickLevel: string,
    skyTempleKeys: string,
    elevators: string,
    startingLocation: StartingLocation,
    startingResources: StartingResources)

  datatype PatcherConfiguration = PatcherConfiguration(warpToStart: bool)

  datatype Permalink = Permalink(
    asStr: string,
    patcherConfiguration: PatcherConfiguration,
    layoutConfiguration: LayoutConfiguration)

  datatype CosmeticPatches = CosmeticPatches(speedUpCredits: bool, disableHudPopup: bool)

  /** `LayoutDescription`: the permalink, the generated patches and the shareable hash. */
  datatype LayoutDescription = LayoutDescription(
    permalink: Permalink,
    patches: GamePatches,
    shareableHash: string)
}
