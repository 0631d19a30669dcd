# Randovania patch-file translator, in Dafny

This project models the patch-file translator of Randovania's Metroid Prime 2
support (`randovania/games/prime/patcher_file.py`). The translator turns a
generated layout into the declarative description that the native patcher
reads. It takes the layout's game patches (starting location, extra initial
items, pickup assignment, elevator connections) and the decoded game data
(resource database, pickup database, world list), and it builds:

- the spawn point, with one capacity entry per item of the resource database;
- one pickup record per pickup index, holding the scan text, the HUD texts,
  the sound and jingle indices, and the filtered resource lists;
- one elevator record per elevator connection, with its room name;
- a few fixed patch flags.

It also models the predicate that recognises a vanilla start.

Modules:

- `GameDescription` (`game_description.dfy`): the game-description values the
  translator reads. `WorldList` lookups are function-valued fields.
- `Layout` (`layout.dfy`): the layout configuration, permalink, layout
  description and cosmetic settings.
- `Formatting` (`formatting.dfy`): Python's `"{}".format(n)` for integers and
  `sep.join(parts)`, with a parser proving that integer formatting can be read
  back.
- `PatcherFile` (`patcher_file.dfy`): the translator itself.

Where the source changes state, the model does too:

- `_add_items_in_resource_gain_to_dict` updates a dictionary in place. Here it
  is a method with a loop over a `ResourceQuantityDict` object whose `map`
  field it reassigns.
- `_create_pickup` appends to two lists in a loop. Here it is a method with a
  loop, proved equal to the declarative `PickupRecordOf`.
- `_create_spawn_point_field` allocates a dictionary, so it is a method too.
  It is proved equal to `SpawnPointOf`, which is defined through the
  reference sum `GainedQuantity`.

The comprehension-only code is written as functions.

## Model

| member | source | states |
|---|---|---|
| `PatcherFile.ResourceQuantityDict.constructor` | randovania/games/prime/patcher_file.py:53 | a new dictionary is empty |
| `PatcherFile.AddItemsInResourceGainToDict` | randovania/games/prime/patcher_file.py:34-44 | the new key set is the old keys plus the ITEM resources of the gain; each key holds its old value (0 if it was absent) plus everything the gain grants it; non-ITEM and unmentioned keys keep their value |
| `PatcherFile.ItemsIn` | randovania/games/prime/patcher_file.py:42-44 | a resource is among the keys the loop adds iff it is an ITEM resource occurring in the gain |
| `PatcherFile.GainedQuantity` | randovania/games/prime/patcher_file.py:42-44 | the reference sum of a resource's quantities in a gain; 0 for a resource the loop never adds |
| `PatcherFile.CreateSpawnPointField` | randovania/games/prime/patcher_file.py:47-69 | location is the starting location; "amount" and "capacity" are the same list; one entry per database item, in database order, with that item's index and the total quantity the extra initial items grant it (0 if none); equal to the declarative `SpawnPointOf` |
| `PatcherFile.JingleIndex` | randovania/games/prime/patcher_file.py:72-77 | the jingle is 1 exactly for "major" and "translator", 2 exactly for "temple_key" and "sky_temple_key", and 0 otherwise |
| `PatcherFile.SoundIndex` | randovania/games/prime/patcher_file.py:123 | the sound is 1 exactly for the two key categories, which are exactly the categories with jingle 2; otherwise 0 |
| `PatcherFile.ScanParts` | randovania/games/prime/patcher_file.py:86-89 | one "quantity long_name" text per resource, in the resources' order |
| `PatcherFile.PickupScan` | randovania/games/prime/patcher_file.py:80-90 | the scan text always starts with the pickup name; it is the name alone unless the category is "expansion", and then the name + " that provides " + the ", "-joined parts |
| `Formatting.IntToDecimal` | randovania/games/prime/patcher_file.py:87 | a quantity prints as non-empty text that starts with "-" exactly when it is negative |
| `Formatting.IntToDecimalRoundTrip` | randovania/games/prime/patcher_file.py:87 | reading a printed quantity back gives the same number |
| `Formatting.NatToDecimalRoundTrip` | randovania/games/prime/patcher_file.py:87 | the digits of a non-negative quantity read back to that quantity |
| `Formatting.IntToDecimalInjective` | randovania/games/prime/patcher_file.py:87 | two different quantities never print alike |
| `Formatting.JoinLength` | randovania/games/prime/patcher_file.py:86-89 | the length of the joined scan text is the total length of the parts plus one separator length between each pair of neighbours |
| `Formatting.JoinFront` | randovania/games/prime/patcher_file.py:86-89 | the joined text begins with the first part; with more parts it is the first part, the separator, then the join of the remaining parts (so, with `Join`'s definition from the back, every part appears in order with one separator between neighbours) |
| `PatcherFile.ItemAmounts` | randovania/games/prime/patcher_file.py:125-132 | an (index, amount) entry is in the list iff some entry of the gain is an ITEM with a positive quantity and gives that pair; all amounts are positive |
| `PatcherFile.ItemAmountsAppend` | randovania/games/prime/patcher_file.py:125-132 | filtering a concatenation gives the concatenation of the filtered parts, so the original order is kept |
| `PatcherFile.CreatePickup` | randovania/games/prime/patcher_file.py:93-135 | pickup_index is the original index; model index copied; scan from `PickupScan`; 1 + #conditionals HUD texts, each "name acquired!"; sound and jingle from the category; filtered resources; one conditional record per conditional, in order, with its item's index and filtered resources |
| `PatcherFile.CreatePickupList` | randovania/games/prime/patcher_file.py:138-149 | exactly `pickup_count` records (none for a negative count); record i has pickup_index i |
| `PatcherFile.PickupListEntry` | randovania/games/prime/patcher_file.py:144-147 | record i describes the pickup assigned to index i, or the useless pickup when index i is unassigned |
| `PatcherFile.PickupListReassign` | randovania/games/prime/patcher_file.py:144-147 | placing a pickup at index i changes record i only, and record i then describes that pickup |
| `PatcherFile.PickupListIgnoresOutOfRange` | randovania/games/prime/patcher_file.py:144-147 | an assignment to an index outside `range(pickup_count)` does not change the list |
| `PatcherFile.PrettyNameForElevator` | randovania/games/prime/patcher_file.py:152-158 | the custom table name whenever the area asset id is in the table, else "world name - area name" |
| `PatcherFile.CustomNamesAreDistinct` | randovania/games/prime/patcher_file.py:18-31 | no two areas in the custom elevator table share a name |
| `PatcherFile.NodesByTeleporterIdKeys` | randovania/games/prime/patcher_file.py:169-173 | an instance id is a key of the teleporter table iff some node of the world list is a teleporter with that id |
| `PatcherFile.NodesByTeleporterIdLastWins` | randovania/games/prime/patcher_file.py:169-173 | the node stored under an id is the last teleporter node with that id |
| `PatcherFile.CreateElevatorsField` | randovania/games/prime/patcher_file.py:161-185 | one record per connection, in connection order: its instance id, target = the connection, room name = "Transport to " + pretty name, origin = the location of the last teleporter node with that instance id |
| `PatcherFile.CreatePatcherFile` | randovania/games/prime/patcher_file.py:188-218 | permalink, seed hash and version are one-element tuples; spawn point, pickups and elevators come from the three builders with the pickup database's useless pickup and total count; both post-state flags are true; the other three flags are copied from the patcher and cosmetic settings |
| `PatcherFile.IsVanillaStartingLocation` | randovania/games/prime/patcher_file.py:221-225 | true exactly when setting the start to ship with vanilla item loss enabled would change nothing |

## Left out

- The bit-packing codec (`BitPackDecoder`, `pack_value`, `bit_pack_unpack`) is not part of this model. Its source (randovania/bitpacking) is not among the modelled files.
- `data_reader.decode_data`: the decoded game data is a parameter of `CreatePatcherFile`.
- `randovania.VERSION` is a parameter. `permalink.as_str` and `shareable_hash` are plain strings in the model.
- `AreaLocation.as_json`: output records hold the `AreaLocation` value itself.
- `world_by_area_location`, `area_by_asset_id`, `node_to_area_location` and `all_nodes` are function-valued or sequence fields of `WorldList`. Their failure paths, an unknown world or area, are not modelled.
- `CreateElevatorsField`: a connection whose instance id has no teleporter node raises `KeyError` in the source. The model makes this a precondition (`ConnectionsHaveTeleporters`) instead of an error result.
- `ResourceType`: only ITEM versus non-ITEM matters, so the other enumerators are folded into `NonItem`. Likewise, the starting-location and starting-resources configurations distinguish only SHIP and VANILLA_ITEM_LOSS_ENABLED.
- Data fields. `PickupEntry`, `GamePatches` and `ResourceDatabase` keep only the fields the translator reads. `ConditionalResources` also keeps its `name`, which the translator does not read. `LayoutConfiguration` keeps its two start settings plus the trick level, sky temple key mode and elevator mode; the translator reads none of those last three. It drops the pickup quantities and `game_data`. The translator does read `game_data`, at randovania/games/prime/patcher_file.py:195, but only to pass it to the decoder, whose result is `CreatePatcherFile`'s `game` parameter.
- `patches.elevator_connection` is a dictionary. Here it is the sequence of its items in insertion order; that order fixes the order of the elevator records.
- Aliasing: "amount" and "capacity" are one list object in the source and two equal sequences here. Nothing in the translator mutates that list after it is built.
- `StartingLocation` and `StartingResources` are reduced to their `configuration` field; the custom location and custom resources they may also carry are not part of this model. `IsVanillaStartingLocation`'s contract ("setting the vanilla start changes nothing") relies on this reduction. With the full types it would hold for the two `configuration` fields only.
