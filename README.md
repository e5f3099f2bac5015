# Swarm survival game: procedural map, upgrades, connections and boss event

This project models the gameplay core of a multiplayer Unity survival game:

- **Map generator.** `ProceduralMapGenerator` and its `MapGeneratorConfig` asset build the level from a seed:
  - a ground tilemap of grass and dirt, decided by thresholding Perlin noise;
  - a pass that swaps grass cells for 3x3 auto-tile edge pieces;
  - decorations in three tiers, where large ones also block movement and never spawn near the centre;
  - four wall colliders around the map, and a padded camera-confiner rectangle.
- **Weapons and upgrades.** `WeaponController` holds a player's pool of upgrades, the history of upgrades applied (saved on death and restored on respawn), the list of active weapons and the global damage multiplier. An upgrade asset either adds a weapon (`WeaponUpgrade`) or raises a stat (`StatUpgrade`); the damage stat acts on the controller itself.
- **Level-up panel.** `LevelUpUI` shuffles the pool with a Fisher-Yates loop, shows one button per option and forwards the player's pick.
- **Start-up screen.** `GameBootstrap` checks the length of the player name and sanitises a device name into a profile name.
- **Name registry.** `ConnectionHandler` is the server's map from client id to player name.
- **Boss event.** `BossEventDirector` is the server-side timer that starts the boss event and resets it.

The Dafny code follows the C# structure. Pure computations become functions, with lemmas about them. Components whose fields change become classes:

- tilemaps are `map<(int, int), Tile>` fields;
- Unity's global random generator is an `Rng` field;
- loops become methods with loop invariants, proved equal to recursive specification functions.

## How the map generator is modelled

Each of the generator's three grid passes (ground, edge tiles, decorations) is a recursive function of the nested-loop indices:

- the state when the loops are about to visit `(x, y)` is the previous cell's step applied to the state before it;
- a finished column hands over to the next one.

The methods' loops are proved to compute exactly these states. Separate lemmas prove what the finished passes contain.

`Generate(cfg, scene, seed)` is everything one `GenerateMap(seed)` builds, as a function of the configuration, the scene and the seed alone. `GenerateMap` is proved to leave the component showing `Generate(cfg, scene, seed)`, including the state of the random generator. So the same seed always gives the same map. That determinism is what lets host and clients agree on the level after the seed is replicated.

Perlin noise and the seed-to-stream mapping of Unity's random generator are parameters (`Scene.perlin`, `Scene.seeding`). Every property holds for every noise function and every random stream.

## Model

| member | source | states |
|---|---|---|
| MapConfig.DefaultConfigInRanges | Assets/Scripts/Gameplay/MapGeneratorConfig.cs:13-64 | A new asset is 100x100 tiles with noise scale 0.1, threshold 0.5 and spawn radius 5, and its chances lie inside the inspector ranges. |
| UnityRandom.InitState | Assets/Scripts/Gameplay/ProceduralMapGenerator.cs:123 | Seeding restarts the generator at the first draw of the stream the seed selects. |
| UnityRandom.Value | Assets/Scripts/Gameplay/ProceduralMapGenerator.cs:263 | `Random.value` lies in [0, 1] and consumes exactly one draw. |
| UnityRandom.RangeInt | Assets/Scripts/Gameplay/ProceduralMapGenerator.cs:265 | Integer `Random.Range(lo, hi)` lies in [lo, hi) and consumes exactly one draw. |
| UnityRandom.RangeFloat | Assets/Scripts/Gameplay/ProceduralMapGenerator.cs:132-133 | Float `Random.Range(lo, hi)` lies in [lo, hi] and consumes exactly one draw. |
| MapGrid.Half | Assets/Scripts/Gameplay/ProceduralMapGenerator.cs:241-242 | C# `n / 2` truncates toward zero: for n >= 0 the result is floor(n/2), and for negative n it is ceil(n/2). |
| MapGrid.Top | Assets/Scripts/Gameplay/ProceduralMapGenerator.cs:244 | A loop from -h while below h stops at h, or at -h at once when h is negative. |
| EdgeTiles.GetEdgeTileIndex | Assets/Scripts/Gameplay/ProceduralMapGenerator.cs:338-356 | The nine ordered pattern tests always give an index 0..8. The index is the cell of the 3x3 layout (297-300) picked by which neighbours are dirt, and it is the centre when all four are grass. |
| EdgeTiles.EdgeIndexPatterns | Assets/Scripts/Gameplay/ProceduralMapGenerator.cs:341-355 | Each corner and edge index is produced by exactly one neighbour pattern (both directions); everything else is the centre. |
| EdgeTiles.EdgeIndexVerticalSymmetry | Assets/Scripts/Gameplay/ProceduralMapGenerator.cs:338-356 | Swapping the top and bottom neighbours mirrors the chosen tile top-to-bottom. |
| EdgeTiles.EdgeIndexHorizontalSymmetry | Assets/Scripts/Gameplay/ProceduralMapGenerator.cs:338-356 | Swapping the left and right neighbours mirrors the chosen tile left-to-right. |
| EdgeTiles.FlipsAreMirrorings | Assets/Scripts/Gameplay/ProceduralMapGenerator.cs:297-300 | The two mirrorings of the layout are involutions that fix exactly its middle row or its middle column. |
| MapPasses.NoiseOffsetShift | Assets/Scripts/Gameplay/ProceduralMapGenerator.cs:330-336 | The sampled noise at a cell is Perlin noise at (cell + offset) * scale, so moving the offsets by whole cells moves the whole field by as many cells. |
| MapPasses.Put | Assets/Scripts/Gameplay/ProceduralMapGenerator.cs:278-281 | Only a non-null tile is written; a null tile leaves the layer unchanged. |
| MapPasses.GroundTileAt | Assets/Scripts/Gameplay/ProceduralMapGenerator.cs:251-276 | Dirt gets the dirt tile and grass gets the fill tile or a variation tile, without touching the generator except for grass with variation tiles, which uses at most two draws. |
| MapPasses.GroundStepEffect | Assets/Scripts/Gameplay/ProceduralMapGenerator.cs:248-281 | One visit writes at most the visited cell, and only a tile allowed for it. |
| MapPasses.GroundPassNext | Assets/Scripts/Gameplay/ProceduralMapGenerator.cs:246-282 | Advancing the inner loop by one cell is one more ground step. |
| MapPasses.GroundPassFrame | Assets/Scripts/Gameplay/ProceduralMapGenerator.cs:244-283 | The ground loops change only visited cells, write only allowed tiles, erase nothing, and the generator only moves forward. |
| MapPasses.GroundPassDirt | Assets/Scripts/Gameplay/ProceduralMapGenerator.cs:272-281 | Every visited dirt cell ends with the dirt tile, when that tile is set. |
| MapPasses.GroundPassGrass | Assets/Scripts/Gameplay/ProceduralMapGenerator.cs:258-270 | Without variation tiles, every visited grass cell ends with the grass fill tile, when that tile is set. |
| MapPasses.EdgeTileAt | Assets/Scripts/Gameplay/ProceduralMapGenerator.cs:306-325 | An edge tile is written only on grass, only with a full 9-tile set, and it is the set's entry at the neighbour index. |
| MapPasses.EdgePassDomain | Assets/Scripts/Gameplay/ProceduralMapGenerator.cs:302-327 | After the edge loops, a cell is set iff it was set before, or it was visited and its edge tile is not null. |
| MapPasses.EdgePassValues | Assets/Scripts/Gameplay/ProceduralMapGenerator.cs:302-327 | A visited cell with a non-null edge tile holds that tile; every other cell keeps its old tile. |
| MapPasses.EdgePassKeepsDirt | Assets/Scripts/Gameplay/ProceduralMapGenerator.cs:309 | The edge pass never changes a dirt cell or a cell it has not visited. |
| MapPasses.TryTier | Assets/Scripts/Gameplay/ProceduralMapGenerator.cs:382-425 | A tier with no tiles places nothing and draws nothing. Otherwise it uses one or two draws, a failed roll places nothing, and a placed tile comes from the tier's array. |
| MapPasses.DecorationAt | Assets/Scripts/Gameplay/ProceduralMapGenerator.cs:373-426 | Dirt gets no decoration and uses no draw. A placement is on grass, takes its tile from its tier, and a large one is never in the spawn safe zone. |
| MapPasses.DecorationPriority | Assets/Scripts/Gameplay/ProceduralMapGenerator.cs:381-426 | Tiers are tried large, medium, small. A lower tier is used only when every higher tier placed nothing, and it rolls on the draws they left. |
| MapPasses.DecorationStepEffect | Assets/Scripts/Gameplay/ProceduralMapGenerator.cs:386-424 | One visit records at most one allowed placement at the visited cell. It writes its tile, and only a large one also goes to an existing collision tilemap. |
| MapPasses.DecorationPassNext | Assets/Scripts/Gameplay/ProceduralMapGenerator.cs:369-427 | Advancing the inner loop by one cell is one more decoration step. |
| MapPasses.DecorationPassPlacements | Assets/Scripts/Gameplay/ProceduralMapGenerator.cs:367-428 | Every placement is at a visited cell, is allowed there and shows in the decoration layer; other cells keep their tiles. |
| MapPasses.DecorationPassLargeCollide | Assets/Scripts/Gameplay/ProceduralMapGenerator.cs:389-395 | With a collision tilemap, every large placement is also in the collision layer with the same tile. |
| MapPasses.DecorationPassCollisions | Assets/Scripts/Gameplay/ProceduralMapGenerator.cs:392-395 | The collision layer gains large placements only, loses nothing, and is left alone when there is no collision tilemap. |
| MapBoundaries.BoundaryWalls | Assets/Scripts/Gameplay/ProceduralMapGenerator.cs:185-193 | There are four walls. |
| MapBoundaries.WallGeometry | Assets/Scripts/Gameplay/ProceduralMapGenerator.cs:185-193 | The walls are one unit thick, mirror each other in pairs, and their inner faces lie exactly on the map edges at +-w/2 and +-h/2. |
| MapBoundaries.WallsEncloseMap | Assets/Scripts/Gameplay/ProceduralMapGenerator.cs:189-193 | Every point of the one-unit ring around the map lies inside some wall, so the walls close the map. |
| MapBoundaries.CameraBoundsPath | Assets/Scripts/Gameplay/ProceduralMapGenerator.cs:215-228 | The confiner path has four corners. |
| MapBoundaries.CameraBoundsRectangle | Assets/Scripts/Gameplay/ProceduralMapGenerator.cs:215-228 | The path is an axis-aligned rectangle centred on the origin. With a padding up to half the map it lies within the map. |
| ProceduralMap.Generate | Assets/Scripts/Gameplay/ProceduralMapGenerator.cs:113-154 | Without a ground tilemap the ground stays empty. Without a decoration tilemap the decoration and collision layers stay empty. The walls and the camera bounds exist exactly when the scene asks for them, with the map's size and padding. |
| ProceduralMap.GenerationNoise | Assets/Scripts/Gameplay/ProceduralMapGenerator.cs:123-133 | After seeding and drawing both offsets, the generator sits at the third draw of the seed's stream. |
| ProceduralMap.GenerateFrom | Assets/Scripts/Gameplay/ProceduralMapGenerator.cs:131-151 | A generation is its ground layer built from its noise, then the decoration layers built on the draws the ground pass left, plus the boundary objects the scene asks for. |
| ProceduralMap.VisitedAll | Assets/Scripts/Gameplay/ProceduralMapGenerator.cs:244-246 | When the nested loops finish they have visited exactly the grid [-w/2, w/2) x [-h/2, h/2). |
| ProceduralMap.GroundLayerContents | Assets/Scripts/Gameplay/ProceduralMapGenerator.cs:237-328 | For any noise field: ground tiles lie in the grid; a dirt cell holds the dirt tile, or nothing when that tile is null; a grass cell holds the fill, a variation or an edge tile. |
| ProceduralMap.GeneratedGround | Assets/Scripts/Gameplay/ProceduralMapGenerator.cs:113-154 | The same contents hold for every generated map, on the generation's own noise. |
| ProceduralMap.GeneratedDecorations | Assets/Scripts/Gameplay/ProceduralMapGenerator.cs:358-429 | Every decoration lies in the grid, on grass. The collision layer holds only large decorations, outside the safe zone, with the decoration layer's tile, and it is empty without a collision tilemap. |
| ProceduralMap.ThresholdMonotonicity | Assets/Scripts/Gameplay/ProceduralMapGenerator.cs:258 | A cell is grass when its noise is above the threshold, so for a fixed seed a higher grass threshold gives a subset of the grass cells, and no more of them. |
| ProceduralMap.RaisingThresholdRemovesGrass | Assets/Scripts/Gameplay/ProceduralMapGenerator.cs:258 | A cell with noise 0.6 is grass at threshold 0.5 and dirt at threshold 0.7. |
| ProceduralMap.DescribedThresholdMonotonicity | Assets/Scripts/Gameplay/MapGeneratorConfig.cs:23-25 | Under the described rule (grass above 1 - threshold), a higher threshold gives a superset of the grass cells. At the default 0.5 that rule picks the same cells as the generator. |
| ProceduralMap.SafeZoneExample | Assets/Scripts/Gameplay/ProceduralMapGenerator.cs:374-382 | One unit from the centre with radius 5, the large tier is skipped without a draw, and the medium and small tiers are still tried as if there were no large tiles. |
| ProceduralMap.ProceduralMapGenerator.constructor | Assets/Scripts/Gameplay/ProceduralMapGenerator.cs:17-56 | A loaded component has generated nothing and has no boundary objects. |
| ProceduralMap.ProceduralMapGenerator.GenerateMap | Assets/Scripts/Gameplay/ProceduralMapGenerator.cs:113-154 | Without a config nothing changes. Otherwise the component shows exactly `Generate(cfg, scene, seed)`: all old tiles and boundary objects are gone, and tiles, walls, camera bounds and the generator's state depend on the seed alone. |
| ProceduralMap.ProceduralMapGenerator.GenerateTerrain | Assets/Scripts/Gameplay/ProceduralMapGenerator.cs:131-139 | From a freshly seeded generator and cleared tilemaps, the offsets, the ground and the decorations are exactly the generation's. |
| ProceduralMap.ProceduralMapGenerator.DrawNoiseOffsets | Assets/Scripts/Gameplay/ProceduralMapGenerator.cs:132-133 | Both offsets lie in [0, 10000], and they and the generator are the generation's noise field. |
| ProceduralMap.ProceduralMapGenerator.ClearAllTilemaps | Assets/Scripts/Gameplay/ProceduralMapGenerator.cs:156-161 | Every tilemap is empty afterwards; a missing one was empty already. |
| ProceduralMap.ProceduralMapGenerator.ClearBoundaries | Assets/Scripts/Gameplay/ProceduralMapGenerator.cs:163-176 | The walls, the camera bounds and the confiner collider are all gone. |
| ProceduralMap.ProceduralMapGenerator.GenerateBoundaryWalls | Assets/Scripts/Gameplay/ProceduralMapGenerator.cs:178-206 | The walls object holds the four walls of the configured size. |
| ProceduralMap.ProceduralMapGenerator.GenerateCameraBounds | Assets/Scripts/Gameplay/ProceduralMapGenerator.cs:208-234 | The camera-bounds object and the exposed collider are the padded rectangle. |
| ProceduralMap.ProceduralMapGenerator.GenerateGroundLayer | Assets/Scripts/Gameplay/ProceduralMapGenerator.cs:237-287 | The loops compute the ground pass and then the edge pass; with no ground tilemap nothing changes. |
| ProceduralMap.ProceduralMapGenerator.GroundColumn | Assets/Scripts/Gameplay/ProceduralMapGenerator.cs:246-282 | One run of the inner loop advances the ground pass by one column. |
| ProceduralMap.ProceduralMapGenerator.PlaceGroundTile | Assets/Scripts/Gameplay/ProceduralMapGenerator.cs:248-281 | The loop body is one ground step. |
| ProceduralMap.ProceduralMapGenerator.ApplyEdgeTiles | Assets/Scripts/Gameplay/ProceduralMapGenerator.cs:289-328 | With fewer than nine edge tiles nothing changes; otherwise the loops compute the edge pass. |
| ProceduralMap.ProceduralMapGenerator.EdgeColumn | Assets/Scripts/Gameplay/ProceduralMapGenerator.cs:304-326 | One run of the inner loop advances the edge pass by one column. |
| ProceduralMap.ProceduralMapGenerator.PlaceEdgeTile | Assets/Scripts/Gameplay/ProceduralMapGenerator.cs:306-325 | The loop body writes the cell's edge tile when there is one. |
| ProceduralMap.ProceduralMapGenerator.GenerateDecorations | Assets/Scripts/Gameplay/ProceduralMapGenerator.cs:358-429 | The loops compute the decoration pass; with no decoration tilemap nothing changes. |
| ProceduralMap.ProceduralMapGenerator.DecorateColumn | Assets/Scripts/Gameplay/ProceduralMapGenerator.cs:369-427 | One run of the inner loop advances the decoration pass by one column. |
| ProceduralMap.ProceduralMapGenerator.DecorateCell | Assets/Scripts/Gameplay/ProceduralMapGenerator.cs:371-426 | The loop body is one decoration step; the integer distance test is the safe-zone predicate. |
| ProceduralMap.ProceduralMapGenerator.RollTier | Assets/Scripts/Gameplay/ProceduralMapGenerator.cs:382-425 | One tier's roll and pick draw from the global generator exactly as the tier attempt specifies. |
| ProceduralMap.ProceduralMapGenerator.OnSeedChanged | Assets/Scripts/Gameplay/ProceduralMapGenerator.cs:91-97 | A replicated seed generates the map only before the first generation and only if it is non-zero; otherwise nothing changes. |
| ProceduralMap.ProceduralMapGenerator.OnNetworkSpawn | Assets/Scripts/Gameplay/ProceduralMapGenerator.cs:99-108 | A late-joining client generates from a non-zero seed it has not generated yet; the server and everyone else change nothing. |
| Upgrades.WithWeapon | Assets/Scripts/Gameplay/Weapons/WeaponController.cs:141-157 | A null asset changes nothing. Otherwise one child object named "Weapon_" + name is added, and one weapon for this owner exactly when the behaviour type resolves. Earlier weapons and the damage multiplier are kept. |
| Upgrades.ApplyIndicesDamage | Assets/Scripts/Gameplay/Weapons/WeaponController.cs:99-106 | Replaying a list of upgrades raises the damage multiplier by exactly the sum of its in-range damage upgrades. |
| Upgrades.ApplyIndicesWeapons | Assets/Scripts/Gameplay/Weapons/WeaponController.cs:99-106 | Replaying a list of upgrades keeps every earlier weapon and weapon object, and adds one weapon object per in-range weapon upgrade that has a weapon asset. |
| Upgrades.UpgradeNames | Assets/Scripts/Gameplay/Weapons/WeaponController.cs:114-125 | There is at most one name per history entry. |
| Upgrades.UpgradeNamesFromPool | Assets/Scripts/Gameplay/Weapons/WeaponController.cs:117-122 | Every name shown is the name of some upgrade in the pool. |
| Upgrades.UpgradeNamesAppend | Assets/Scripts/Gameplay/Weapons/WeaponController.cs:114-125 | The names of two histories laid end to end are the names of each, laid end to end. |
| Upgrades.UpgradeNamesInRange | Assets/Scripts/Gameplay/Weapons/WeaponController.cs:117-122 | When every index is valid there is one name per history entry, the name of the indexed upgrade. |
| Upgrades.UpgradeNamesFiltered | Assets/Scripts/Gameplay/Weapons/WeaponController.cs:119 | Dropping the invalid indices first changes no name. |
| Upgrades.UpgradeNamesAfterRestore | Assets/Scripts/Gameplay/Weapons/WeaponController.cs:95-125 | After a restore, the names shown are the old names followed by the names of the restored list's valid entries. |
| Upgrades.SaveRestoreRoundTrip | Assets/Scripts/Gameplay/Weapons/WeaponController.cs:87-109 | Filtering a saved history whose entries all index the pool drops nothing, so restoring it appends exactly the saved entries. |
| Upgrades.WeaponController.constructor | Assets/Scripts/Gameplay/Weapons/WeaponController.cs:9-18 | A new controller has no weapons and no history, a damage multiplier of 1, and is enabled. |
| Upgrades.WeaponController.OnNetworkSpawn | Assets/Scripts/Gameplay/Weapons/WeaponController.cs:20-35 | On the server, the starting weapon is added as `AddWeapon` adds it (nothing when it is null); clients change nothing. |
| Upgrades.WeaponController.RequestUnlockWeaponServerRpc | Assets/Scripts/Gameplay/Weapons/WeaponController.cs:47-64 | A valid index is applied to the player and appended to the history; an invalid one changes nothing. The history keeps naming exactly the upgrades applied. |
| Upgrades.WeaponController.ApplyUpgradeAtIndex | Assets/Scripts/Gameplay/Weapons/WeaponController.cs:70-82 | The same, but only on the server. |
| Upgrades.WeaponController.Apply | Assets/Scripts/Gameplay/Weapons/WeaponController.cs:53-58 | The upgrade's effect reaches the weapons, weapon objects and damage multiplier, the upgrade is appended to the applied upgrades and its index to the history. |
| Upgrades.WeaponController.ApplyEffect | Assets/Scripts/ScriptableObjects/Updates/StatsUpgrade.cs:17-47 | A damage upgrade raises the multiplier by its value. Health and speed upgrades leave the weapons and the multiplier as they are. A weapon upgrade (`WeaponUpgrade.cs` lines 8-15) adds its weapon, as `AddWeapon` does. |
| Upgrades.WeaponController.GetAppliedUpgradeHistory | Assets/Scripts/Gameplay/Weapons/WeaponController.cs:87-90 | The copy equals the history, and every entry indexes the pool. |
| Upgrades.WeaponController.RestoreUpgrades | Assets/Scripts/Gameplay/Weapons/WeaponController.cs:95-109 | On the server, exactly the valid entries of the list are applied and appended, in list order, and the loadout is the replay of the list; off the server nothing changes. |
| Upgrades.WeaponController.GetAppliedUpgradeNames | Assets/Scripts/Gameplay/Weapons/WeaponController.cs:114-125 | The loop yields the upgrade names of the history's valid entries, in history order. |
| Upgrades.WeaponController.IncreaseGlobalDamage | Assets/Scripts/Gameplay/Weapons/WeaponController.cs:136-139 | The damage multiplier grows by the amount. |
| Upgrades.WeaponController.AddWeapon | Assets/Scripts/Gameplay/Weapons/WeaponController.cs:141-157 | The weapons and weapon objects become those of `WithWeapon`: a child object for any non-null asset, and an active weapon only when its behaviour class resolves. |
| Upgrades.WeaponObjectName | Assets/Scripts/Gameplay/Weapons/WeaponController.cs:145 | The child object is named "Weapon_" followed by the weapon's name. |
| Upgrades.RespawnWithSavedUpgrades | Assets/Scripts/Gameplay/Weapons/WeaponController.cs:84-109 | The history saved from one controller and restored into a freshly spawned server controller with the same pool gives the same history and the same applied upgrades. The new loadout is the starting weapon followed by the replay of the saved upgrades. |
| LevelUp.Swap | Assets/Scripts/UI/LevelUpUI.cs:42-45 | The swap exchanges the two entries and leaves every other entry in place. |
| LevelUp.SwapMultiset | Assets/Scripts/UI/LevelUpUI.cs:42-45 | A swap keeps the multiset of entries. |
| LevelUp.SwapKeepsDistinct | Assets/Scripts/UI/LevelUpUI.cs:42-45 | A swap adds no duplicate and no out-of-range entry. |
| LevelUp.FisherYates | Assets/Scripts/UI/LevelUpUI.cs:38-46 | The shuffle from position i keeps the length and the entries before i, and takes exactly one draw per remaining position. |
| LevelUp.FisherYatesPermutes | Assets/Scripts/UI/LevelUpUI.cs:38-46 | The shuffle is a permutation: same length and the same multiset, so it keeps distinctness and the range of the entries. |
| LevelUp.ShuffledIndicesArePermutation | Assets/Scripts/UI/LevelUpUI.cs:30-46 | The offered order holds every pool index exactly once (the source's "unique items without duplicates"). |
| LevelUp.AssignButtons | Assets/Scripts/UI/LevelUpUI.cs:48-71 | Button i is shown iff there is an i-th option, and a shown button sends that option. |
| LevelUp.VisibleCountPrefix | Assets/Scripts/UI/LevelUpUI.cs:49-59 | When exactly the first k buttons are shown, min(buttons, k) are visible. |
| LevelUp.ShownButtons | Assets/Scripts/UI/LevelUpUI.cs:25-75 | After showing, min(buttons, pool size) buttons are visible, each sends a valid pool index, and no two send the same one. |
| LevelUp.LevelUpUI.constructor | Assets/Scripts/UI/LevelUpUI.cs:19-23 | The panel starts hidden with no controller. |
| LevelUp.LevelUpUI.ShowOptions | Assets/Scripts/UI/LevelUpUI.cs:25-75 | The controller is remembered and the buttons are the shuffled indices assigned in order. The panel is shown, and the player's weapons and movement are disabled. |
| LevelUp.LevelUpUI.IndexList | Assets/Scripts/UI/LevelUpUI.cs:31-36 | The list is [0, 1, ..., n-1]. |
| LevelUp.LevelUpUI.Shuffle | Assets/Scripts/UI/LevelUpUI.cs:40-46 | The in-place loop computes the Fisher-Yates specification and leaves the generator where it does. |
| LevelUp.LevelUpUI.AssignOptionButtons | Assets/Scripts/UI/LevelUpUI.cs:49-71 | The button loop computes the button assignment. |
| LevelUp.LevelUpUI.SelectUpgrade | Assets/Scripts/UI/LevelUpUI.cs:77-88 | The pick reaches the controller's upgrade request: a valid index is appended to the history and its effect applied to the loadout, and an invalid one changes neither. The panel is hidden and the player's input is enabled again. |
| LevelUp.LevelUpUI.SetPlayerInput | Assets/Scripts/UI/LevelUpUI.cs:90-95 | The weapons take the flag, and so does movement when the player has a movement component. |
| Bootstrap.Utf16Length | Assets/Scripts/Bootstrap/GameBootstrap.cs:69 | C#'s `Length` counts UTF-16 code units: between one and two per character, and one per character exactly when every character lies in the Basic Multilingual Plane. |
| Bootstrap.EmojiNameLength | Assets/Scripts/Bootstrap/GameBootstrap.cs:69 | One emoji is one character but two code units, and seven emoji are fourteen. |
| Bootstrap.SanitizedProfileName | Assets/Scripts/Bootstrap/GameBootstrap.cs:86-109 | Null or empty input gives "Player". Otherwise the result fits maxLength, and it is not empty when maxLength is at least 1. |
| Bootstrap.SanitizedProfileNameProperties | Assets/Scripts/Bootstrap/GameBootstrap.cs:86-109 | Empty input gives "Player". Otherwise the result fits maxLength; it is the longest fitting prefix of the kept letters, digits and '_' in their original order, or "Player" cut to fit when none are kept. |
| Bootstrap.SanitizeIdempotent | Assets/Scripts/Bootstrap/GameBootstrap.cs:86-109 | Sanitising a sanitised name changes nothing, whenever "Player" fits the limit, or the input was not empty and the limit is at least 1. |
| Bootstrap.SanitizeShortLimitOnEmpty | Assets/Scripts/Bootstrap/GameBootstrap.cs:88 | With a limit of 3, empty input gives "Player" uncut, and sanitising that gives "Pla". |
| Bootstrap.SanitizeKeepsNonAscii | Assets/Scripts/Bootstrap/GameBootstrap.cs:94 | When the letter test accepts 'é', the name "é" comes back unchanged, although 'é' is not in a-z, A-Z, 0-9 or '_'. |
| Bootstrap.AsciiProfileName | Assets/Scripts/Bootstrap/GameBootstrap.cs:84 | With the documented ASCII test, every character of the result is in a-z, A-Z, 0-9 or '_'. Non-empty input gives a result that fits the limit and is taken in order from the input, or is a prefix of "Player". |
| Bootstrap.GameBootstrap.constructor | Assets/Scripts/Bootstrap/GameBootstrap.cs:16 | The connect button starts disabled. |
| Bootstrap.GameBootstrap.ValidateName | Assets/Scripts/Bootstrap/GameBootstrap.cs:67-72 | The connect button is enabled iff the name has 2 to 12 UTF-16 code units. |
| Bootstrap.GameBootstrap.SanitizeProfileName | Assets/Scripts/Bootstrap/GameBootstrap.cs:86-109 | The loop computes the sanitised name specified above. |
| Connections.ConnectionHandler.constructor | Assets/Scripts/Network/ConnectionHandler.cs:11-14 | The registry starts empty. |
| Connections.ConnectionHandler.ApprovalCheck | Assets/Scripts/Network/ConnectionHandler.cs:32-58 | The client's name is recorded, replacing an old one, and every other client's name is unchanged. The connection is approved with a player object at the circle point scaled by the spawn radius. |
| Connections.ConnectionHandler.GetPlayerName | Assets/Scripts/Network/ConnectionHandler.cs:61-68 | A known client's stored name, else "Unknown Survivor". |
| Connections.ConnectionHandler.OnServerStarted | Assets/Scripts/Network/ConnectionHandler.cs:70-77 | The host (id 0) is registered under its saved name or "Host" only if absent; afterwards it is always registered. |
| Connections.ConnectionHandler.OnClientDisconnect | Assets/Scripts/Network/ConnectionHandler.cs:79-85 | The client is forgotten and reads as "Unknown Survivor"; every other client keeps its name. |
| BossEvents.Tick | Assets/Scripts/Gameplay/Managers/BossEventDirector.cs:44-50 | An active event is kept as it is. An inactive one starts exactly when the timer plus the frame reaches the duration. Its timer never runs backwards, and while it stays inactive it keeps "0 <= timer < duration". |
| BossEvents.RunStartsWhenDue | Assets/Scripts/Gameplay/Managers/BossEventDirector.cs:42-51 | Over frames of non-negative length, an inactive event has started iff the timer plus the elapsed time reached the duration. Until then the timer holds exactly the elapsed time, and a started event stays as it is. |
| BossEvents.SumNonNegative | Assets/Scripts/Gameplay/Managers/BossEventDirector.cs:46 | Frame times that are never negative never add up to a negative total. |
| BossEvents.BossEventDirector.constructor | Assets/Scripts/Gameplay/Managers/BossEventDirector.cs:21-31 | No event and the timer at zero; valid for a positive duration. |
| BossEvents.BossEventDirector.OnNetworkSpawn | Assets/Scripts/Gameplay/Managers/BossEventDirector.cs:33-40 | On the server the timer restarts and no event is active; clients change nothing. |
| BossEvents.BossEventDirector.Update | Assets/Scripts/Gameplay/Managers/BossEventDirector.cs:42-51 | One server frame is one timer tick. When the tick starts the event, the spawner stops and a boss spawns. The invariant "inactive ⇒ 0 <= timer < duration" is kept. |
| BossEvents.BossEventDirector.ForceStartEvent | Assets/Scripts/Gameplay/Managers/BossEventDirector.cs:53-56 | Only on the server and only without a running event is the event started. |
| BossEvents.BossEventDirector.StartBossEvent | Assets/Scripts/Gameplay/Managers/BossEventDirector.cs:58-81 | The event is active, the assigned spawner stops and one boss is spawned. |
| BossEvents.BossEventDirector.OnBossDefeated | Assets/Scripts/Gameplay/Managers/BossEventDirector.cs:191-224 | On the server the event ends, the timer restarts and the assigned spawner resumes. |
| BossEvents.BossEventDirector.ResetBossEventOnPlayerDeath | Assets/Scripts/Gameplay/Managers/BossEventDirector.cs:231-281 | As for a defeat, and every spawned boss is despawned. |

`SanitizeProfileName` is idempotent only under a condition. With empty input the first pass returns "Player" without applying the length limit, so for a limit below 6 a second pass shortens it (`Bootstrap.SanitizeShortLimitOnEmpty`). The only caller uses a limit of 20, where idempotence holds (`Bootstrap.SanitizeIdempotent`).

## Left out

- `ProceduralMapGenerator.Start` and `RegenerateMap` (lines 58-89, 431-447): they pick a random seed and replicate it through a network variable. What they then run is the modelled `GenerateMap`, `OnSeedChanged` and `OnNetworkSpawn`. `OnDestroy` only unsubscribes an event.
- Perlin noise and the algorithm of Unity's random generator are parameters of the scene. `Random.value` is modelled as a 24-bit fraction in [0, 1]. `Random.insideUnitCircle` is drawn by the caller of `ApprovalCheck`.
- Floats are reals. The safe-zone test `sqrt(d²) < r` is the exact comparison `d² < r²` for a positive integer radius, and single-precision rounding is not modelled.
- C# `int` overflow in map sizes and `x * x` is not modelled; integers are unbounded. `ulong` client ids are `nat`.
- `MapGrid.Half`: the half-extent `config.mapWidth / 2` is modelled with its truncation; a negative map size makes the loops run zero times, as in C#.
- Tilemaps are values held by the generator: two generators sharing one tilemap (aliasing) are not modelled. The z coordinate is always 0.
- Wall names are an enumeration rather than strings. The wall and camera game objects are their geometry; transforms, parenting, layers and trigger flags are not modelled.
- Networking: server and client RPCs run their bodies directly. `ResumeGameplayClientRpc` has an empty body for its owner. `WeaponController.Update` only calls each weapon's own update, which is outside this model. Netcode ownership checks are the `isServer` flags.
- Upgrade effects on other components: a `MaxHealth` or `Heal` upgrade acts on the player's `Health` and a `MoveSpeed` upgrade on its `PlayerMovement`; neither component is part of this model, so those upgrades leave the modelled loadout unchanged. `Health` rounds the value to an `int`, which is not modelled either.
- `Upgrades.WeaponController.ApplyEffect`: `TryGetComponent` is taken to find this controller on the player, which is where the upgrade is applied (`Apply(gameObject)`); a player without the component is not modelled.
- Each weapon's behaviour is outside this model. An applied upgrade is recorded in the ghost log `applied`, and `System.Type.GetType` is the parameter `resolvesType`.
- A null entry in `allUpgradesPool` is not modelled: the pool is a sequence of upgrade values. The source would throw a null reference at `WeaponController.cs` lines 53-55 and 103, and in `GetAppliedUpgradeNames` at line 121.
- `LevelUpUI`: button captions and the panel's game object are not modelled; buttons are their shown flag and the index their listener sends. The static `Instance` fields of all components are left out.
- `LevelUp.LevelUpUI.SelectUpgrade`: with no controller, the source dereferences null in `SetPlayerInput`. The model stops after hiding the panel, which is where the exception ends the call.
- `Bootstrap.GameBootstrap.SanitizeProfileName`: a negative `maxLength` on non-empty input makes `Substring` throw; the model requires `maxLength >= 0` there. `char.IsLetterOrDigit` is the parameter `isLetterOrDigit`, applied to characters of the Basic Multilingual Plane; characters outside it are two surrogate code units in C#, which that test always rejects.
- Strings are sequences of Unicode characters. C#'s UTF-16 code units are modelled by counting (`Utf16Length`), and a lone surrogate, which a C# string may hold, has no counterpart.
- `GameBootstrap.Start` and `EnterLobby`: Unity services sign-in, the profile GUID, `PlayerPrefs` and scene loading are not modelled. `ValidateName` and `SanitizeProfileName` are.
- `ConnectionHandler`: decoding the JSON payload is not modelled; the request carries the decoded name. `PlayerPrefs` is the `savedName` parameter. `Awake` and `Start` only register callbacks.
- `BossEventDirector`: cameras, teleports, the PvP director, the health-bar RPCs and the boss's position are not modelled. The spawner and the live bosses are the ghost fields `spawnerRunning` and `bossesAlive`. `Time.deltaTime` is the `dt` parameter, which must not be negative.

## Findings

| source | as written | input that shows it | evidently intended | confidence | as-written member | corrected member |
|---|---|---|---|---|---|---|
| Assets/Scripts/Gameplay/ProceduralMapGenerator.cs:258 | The threshold is described as "Higher = more grass" (`MapGeneratorConfig.cs` line 23), but a cell is grass when its noise is above the threshold, so raising it gives less grass. | A cell with noise 0.6 is grass at threshold 0.5 and dirt at 0.7. | A higher threshold gives more grass, for instance grass when the noise is above 1 - threshold, which agrees with the code at the default 0.5. | medium, not executed | `ProceduralMap.ThresholdMonotonicity`, `ProceduralMap.RaisingThresholdRemovesGrass` | `ProceduralMap.DescribedThresholdMonotonicity` |
| Assets/Scripts/Bootstrap/GameBootstrap.cs:94 | The sanitiser is documented (line 84) to keep only a-z, A-Z, 0-9 and '_', but it keeps every character `char.IsLetterOrDigit` accepts, such as 'é'. | The device name "é" gives the profile name "é". | Only ASCII letters, digits and '_' survive. | medium, not executed | `Bootstrap.SanitizeKeepsNonAscii` | `Bootstrap.AsciiProfileName` |

The map passes and `Generate` keep the generator's comparison, since that is what decides the map; the described rule is stated beside it. The sanitiser's specification `SanitizedProfileName` takes the letter test as a parameter: with `IsAsciiLetterOrDigit` it is the corrected sanitiser `AsciiProfileName`, and `GameBootstrap.SanitizeProfileName` computes it when given that test.
