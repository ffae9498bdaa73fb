# Multiplayer RPG session logic, with three smaller game cores

This Dafny project models the game logic of a set of Phaser games.

**The authoritative server scene of the multiplayer RPG.** It keeps:
- the per-player state dictionary;
- a FIFO queue of movement inputs per player;
- the fighter registry with its `fightMode` flag.

On each tick it applies one queued input per player and broadcasts the players whose position or orientation changed. It also covers:
- hit resolution with a fixed, unclamped health decrement;
- the last-fighter-standing check;
- the fight waiting room and its countdown;
- joining, leaving, kicking out and restarting.

**The RPG client.** The model covers:
- the three fight flags, whose `fightMode` setter closes the waiting room;
- the scene's key-to-input edge detection;
- the voting-zone highlight and the hide-while-voting rule;
- the fight-event guards;
- the avatar allocator of the player factory;
- both LPC character classes: the arrow pool, shoot animations, and the hyphen-split idle rewrite.

**The dungeon-crawler hero `Fauna`.** Its IDLE/DAMAGE/DEAD health machine with the 250 ms recovery, key priority, and knife direction.

**The flappy-bird scene.** Score clamped at zero, pipe wrapping past the right-most pipe, the initial pipe layout, and the bounds of the random pipe gap.

## Modelling conventions

- Where the source changes state in place, the model is a class whose methods say their whole new state with `modifies` and `old`:
  - `ServerGame.GameScene`, `ClientScene.ClientGame`, `ClientFightState.GameFightState`;
  - `PlayerFactory.AvatarAllocator`, `PhaserLpc.Lpc`, `PhaserLpc.WeaponGroup`;
  - `LegacyLpc.Character`, `Fauna.Hero`, `FlappyGame.Scene`.
- The pure rules those methods follow are functions, and lemmas prove properties of them. Examples: `WalkAnimation`, `NextMovementInput`, `Tick`, `Wrapped`, `Allocate`, `WinEmissions`.
- Network emissions are appended to a log (`outbox`, `sent`). Calls the scene makes on characters are appended to `calls`.
- Phaser's delayed calls become explicit `...Fires` / `...Expires` methods.
- Random spawn points, physics contact flags, the frame time and `Phaser.Math.Between` draws are method inputs. A `Between` draw is a fraction `num/den` in [0, 1), scaled and floored as Phaser does.
- The player class constants `FULL_HEALTH` and `HEALTH_DAMAGE_DECREASE` are parameters of the server scene.
- Flappy-bird scores are kept in half points: wrapping a pipe adds 1 and the blinking penalty subtracts 2.
- JavaScript `split('-')`, `join('-')` and assignment past the end of an array are modelled exactly (`Split`, `Join`, `SetSegment`).
- Where the code and its comments or the project's prose disagree, the model follows the code:
  - Health is never clamped.
  - `fightMode` is already on during the waiting room.
  - `EndFight` can be broadcast more than once.
  - A restart keeps the fighter set.
  - The client's weapon-overlap handler swaps the roles of its two arguments; the model states both that code and the handler its comments describe (see Findings).

## Model

| member | source | states |
|---|---|---|
| ServerGame.HurtOrientation | src/rpg-multiplayer-game/src/server/src/scenes/Game.ts:256-264 | The hurt side is up exactly when the body touches up, else down, else right, else left |
| ServerGame.SyncedDeltaIsEmpty | src/rpg-multiplayer-game/src/server/src/scenes/Game.ts:397-426 | Once the stored states are synced with the bodies, a tick with no movement has an empty delta and broadcasts nothing |
| ServerGame.FrontDequeued | src/rpg-multiplayer-game/src/server/src/scenes/Game.ts:385-394 | Splitting a queue into the input a tick takes (none when empty) and the rest it leaves, then rejoining them, gives the queue back |
| ServerGame.DequeueAll | src/rpg-multiplayer-game/src/server/src/scenes/Game.ts:385-394 | Every queue loses exactly its oldest input, if any, and that input is handed to the player's body; head plus rest is the old queue |
| ServerGame.SyncWithBodies | src/rpg-multiplayer-game/src/server/src/scenes/Game.ts:397-422 | Every stored state takes its body's x, y and orientation; a player is in the delta iff one of them changed |
| ServerGame.AllFighters | src/rpg-multiplayer-game/src/server/src/scenes/Game.ts:607-609 | A fighter set inside the player set and as large as it is the player set, so the count comparison means every player fights |
| ServerGame.HealthNeverNegative | src/rpg-multiplayer-game/src/server/src/scenes/Game.ts:238-243 | When full health is a multiple of the decrement and hits only land on positive health, health stays at or above 0 and on the grid, so the lethal hit lands exactly on 0 |
| ServerGame.UnclampedHealthSkipsZero | src/rpg-multiplayer-game/src/server/src/scenes/Game.ts:241-245 | With health 100 and decrement 30 the value 0 is skipped and the fourth hit leaves -20: health is not clamped |
| ServerGame.HealthAfterFirstHit | src/rpg-multiplayer-game/src/server/src/scenes/Game.ts:238-245 | The health after hits+1 hits from full is the health after hits hits starting from full minus the decrement |
| ServerGame.OffGridHealthGoesNegative | src/rpg-multiplayer-game/src/server/src/scenes/Game.ts:238-245 | For any positive full health that is not a multiple of the positive decrement, health stays positive for some number of hits and the next hit leaves it negative: zero is skipped, so no `PlayerDead` is sent |
| ServerGame.GameScene.constructor | src/rpg-multiplayer-game/src/server/src/scenes/Game.ts:50-62 | The scene starts with no players, queues, bodies or fighters, fight mode off and no timer |
| ServerGame.GameScene.CheckFightWinCondition | src/rpg-multiplayer-game/src/server/src/scenes/Game.ts:281-293 | There is a winner iff exactly one fighter has positive health, and it is that fighter |
| ServerGame.GameScene.HandleWinCondition | src/rpg-multiplayer-game/src/server/src/scenes/Game.ts:295-318 | Nothing happens outside fight mode. Otherwise `EndFight` is broadcast and a restart is armed exactly when one fighter is alive and its id is truthy. No state changes |
| ServerGame.GameScene.HandleThrowableWeaponPlayerOverlap | src/rpg-multiplayer-game/src/server/src/scenes/Game.ts:218-278 | Hitting the thrower, a non-fighter or a player at health 0 or below changes nothing. Otherwise only the struck player's health drops by the decrement, then `PlayerDead` (at exactly 0) or `PlayerHurt` with the new health, damage and side is broadcast, then the win check runs. The weapon is disabled only on a non-lethal hit |
| ServerGame.GameScene.AddPlayerFromInitialState | src/rpg-multiplayer-game/src/server/src/scenes/Game.ts:321-350 | Adds the state with an all-false input, an empty queue and a body at the given spot; nothing else changes |
| ServerGame.GameScene.RemovePlayer | src/rpg-multiplayer-game/src/server/src/scenes/Game.ts:352-366 | Removes exactly that player from fighters, bodies, states and queues, then runs the win check |
| ServerGame.GameScene.HandlePlayerMovementInput | src/rpg-multiplayer-game/src/server/src/scenes/Game.ts:369-376 | A registered player's input becomes its `movementInput` and joins the back of its queue; an unknown id changes nothing |
| ServerGame.GameScene.HandlePlayerMovementInputUpdate | src/rpg-multiplayer-game/src/server/src/scenes/Game.ts:385-394 | Each queue gives up its oldest input to its body; states and the log are unchanged |
| ServerGame.GameScene.HandlePlayerUpdate | src/rpg-multiplayer-game/src/server/src/scenes/Game.ts:397-426 | The stored states become synced with the bodies; one status update of the changed players is broadcast, and only when some player changed |
| ServerGame.GameScene.Update | src/rpg-multiplayer-game/src/server/src/scenes/Game.ts:429-432 | One tick dequeues one input per player, feeds it to the body and syncs every state with its body. The log gains exactly the status broadcast of the changed players, if any. Fighters, fight mode, the countdown and pending restarts are untouched |
| ServerGame.GameScene.ResetPlayersPosition | src/rpg-multiplayer-game/src/server/src/scenes/Game.ts:457-467 | Every body moves to its drawn spawn point; nothing else changes |
| ServerGame.GameScene.ResetPlayersHealth | src/rpg-multiplayer-game/src/server/src/scenes/Game.ts:470-475 | Every player's health becomes the full health; nothing else changes |
| ServerGame.GameScene.RestartGame | src/rpg-multiplayer-game/src/server/src/scenes/Game.ts:477-481 | Every player respawns with full health and fight mode ends; the fighter set is kept |
| ServerGame.GameScene.HandleRestartRequest | src/rpg-multiplayer-game/src/server/src/scenes/Game.ts:575-578 | A client's restart request respawns every body at its drawn spawn point, restores full health, ends fight mode and tells everyone; queues, fighters and timers are unchanged |
| ServerGame.GameScene.RestartTimerFires | src/rpg-multiplayer-game/src/server/src/scenes/Game.ts:306-316 | The ten-second timer armed by `EndFight` respawns every body, restores full health, ends fight mode and tells everyone; one pending restart is consumed, queues and fighters are unchanged |
| ServerGame.GameScene.HandleJoinFight | src/rpg-multiplayer-game/src/server/src/scenes/Game.ts:580-613 | The player joins the fighters. The first volunteer outside fight mode turns fight mode on, opens the waiting room and arms the countdown. Later, once every player fights, the scene drops its countdown handle |
| ServerGame.GameScene.CountdownFires | src/rpg-multiplayer-game/src/server/src/scenes/Game.ts:588-606 | With two or more fighters the bodies respawn and `StartFight` lists the fighters. Otherwise they respawn, a restart is broadcast and fight mode ends |
| ServerGame.GameScene.HandleDisconnect | src/rpg-multiplayer-game/src/server/src/scenes/Game.ts:678-690 | Exactly that player leaves the states, queues, bodies and fighters and everyone is told. Fight mode ends when no player is left, and a restart is armed for each win emission the removal causes |
| ServerGame.GameScene.HandleConnect | src/rpg-multiplayer-game/src/server/src/scenes/Game.ts:494-538 | A missing or unparsable handshake sends "Missing playerSettings" to the peer and runs the disconnect, with its win check and restart arming. A falsy parse changes nothing. Usable settings add the player with a body at the spawn point, facing down |
| ServerGame.GameScene.WelcomePlayer | src/rpg-multiplayer-game/src/server/src/scenes/Game.ts:503-538 | The player joins at the spawn point, facing down, with full health and no zone. It receives everyone's initial view (and the fighters during a fight); the others receive its view |
| ServerGame.GameScene.HandleFightAction | src/rpg-multiplayer-game/src/server/src/scenes/Game.ts:615-632 | A registered player's action is relayed to the others with its body's position and orientation; an unknown id changes nothing |
| ServerGame.GameScene.HandleSettingsUpdate | src/rpg-multiplayer-game/src/server/src/scenes/Game.ts:551-563 | New settings are relayed to the others; the stored settings are not changed |
| ServerGame.GameScene.HandleRestartPosition | src/rpg-multiplayer-game/src/server/src/scenes/Game.ts:566-573 | Only the requesting player's body moves to the spawn point, if it exists |
| ServerGame.GameScene.HandleKickout | src/rpg-multiplayer-game/src/server/src/scenes/Game.ts:636-644 | The target's socket, if found, is told; exactly the target leaves states, queues, bodies and fighters, and a restart is armed for each win emission. Fight mode is untouched |
| ClientFightState.GameFightState.constructor | src/rpg-multiplayer-game/src/client/src/phaser-client/states/GameFightState.ts:5-11 | All three flags start false |
| ClientFightState.GameFightState.SetPlayerWantsToFight | src/rpg-multiplayer-game/src/client/src/phaser-client/states/GameFightState.ts:13-15 | Changes only `playerWantsToFight` |
| ClientFightState.GameFightState.SetFightMode | src/rpg-multiplayer-game/src/client/src/phaser-client/states/GameFightState.ts:21-26 | Turning the fight on closes the waiting room; turning it off leaves the other flags as they were |
| ClientFightState.GameFightState.SetOnWaitingRoom | src/rpg-multiplayer-game/src/client/src/phaser-client/states/GameFightState.ts:32-34 | Changes only `onWaitingRoom` |
| ClientFightState.GameFightState.Clear | src/rpg-multiplayer-game/src/client/src/phaser-client/states/GameFightState.ts:40-44 | All three flags end false whatever they were, so clearing twice is clearing once |
| ClientScene.AxisInput | src/rpg-multiplayer-game/src/client/src/phaser-client/scenes/Game.ts:639-646 | Exactly one key of a pair down sets its flag and keeps the other; neither or both clear both |
| ClientScene.NextMovementInput | src/rpg-multiplayer-game/src/client/src/phaser-client/scenes/Game.ts:637-655 | The horizontal and vertical flags each follow the one-axis rule, starting from the previous input |
| ClientScene.NextMovementInputIdempotent | src/rpg-multiplayer-game/src/client/src/phaser-client/scenes/Game.ts:637-657 | Holding the same keys again gives the same input, so a held key is sent once |
| ClientScene.NoKeysStops | src/rpg-multiplayer-game/src/client/src/phaser-client/scenes/Game.ts:643-655 | With no key held, the new input is all false |
| ClientScene.BothHorizontalFlags | src/rpg-multiplayer-game/src/client/src/phaser-client/scenes/Game.ts:639-646 | One concrete instance: holding left after right gives an input with both left and right set |
| ClientScene.VisibilityWhileVoting | src/rpg-multiplayer-game/src/client/src/phaser-client/scenes/Game.ts:603-610 | The current player, or any player without a truthy frontier, is left alone. Otherwise a player is hidden iff players are hidden while voting and it stands above the frontier |
| ClientScene.WeaponAfterOverlap | src/rpg-multiplayer-game/src/client/src/phaser-client/scenes/Game.ts:612-627 | The handler as its comments intend it (the corrected version, see Findings): a weapon passes through its thrower and dead players; anyone else switches it off and hides it |
| ClientScene.StruckPlayerAsWritten | src/rpg-multiplayer-game/src/client/src/phaser-client/scenes/Game.ts:612-627 | The handler as written, with the roles swapped: the struck player is left alone when the weapon's `id` equals the player's `thrownBy` or the weapon reads as dead, and is otherwise switched off and hidden |
| ClientScene.OverlapAsWrittenIgnoresHit | src/rpg-multiplayer-game/src/client/src/phaser-client/scenes/Game.ts:612-627 | When neither object has the field read off it, the handler as written leaves the struck player untouched, while the intended one stops an arrow from "a" hitting living "b" |
| ClientScene.ClientGame.constructor | src/rpg-multiplayer-game/src/client/src/phaser-client/scenes/Game.ts:65-76 | No input, free to move, connected, no zone highlighted, nothing sent; the voting frontier read from the map and the hide-while-voting setting are given |
| ClientScene.ClientGame.UpdateLastMovementInput | src/rpg-multiplayer-game/src/client/src/phaser-client/scenes/Game.ts:665-679 | The input is stored and sent iff some flag differs from the stored one, and then applied to the current player only if it exists; otherwise nothing changes |
| ClientScene.ClientGame.HandleMovementInput | src/rpg-multiplayer-game/src/client/src/phaser-client/scenes/Game.ts:634-663 | Nothing happens while the player cannot move. Otherwise the stored input becomes the derived one; it is sent iff it differs, and then applied to the current player if it exists. Zone, connection and healths are unchanged |
| ClientScene.ClientGame.HardStopCurrentPlayerMovement | src/rpg-multiplayer-game/src/client/src/phaser-client/scenes/Game.ts:697-704 | The stored input ends all false and is sent unless it already was |
| ClientScene.ClientGame.SetPlayerCanMove | src/rpg-multiplayer-game/src/client/src/phaser-client/scenes/Game.ts:339-344 | Clearing the flag hard-stops the player: the all-false input is sent and applied iff it differs from the stored one. Setting it changes nothing else |
| ClientScene.ClientGame.UpdateVotingZoneRender | src/rpg-multiplayer-game/src/client/src/phaser-client/scenes/Game.ts:706-721 | The highlight moves only from none to a truthy zone (filled at 80%) or from a zone to none (back to 50%). A different zone, or a falsy value while none is highlighted, leaves the whole scene unchanged. Nothing but the highlight and the fills ever changes |
| ClientScene.ClientGame.HandlePlayerVisibilityWhileVoting | src/rpg-multiplayer-game/src/client/src/phaser-client/scenes/Game.ts:603-610 | Applies the visibility rule to one player; the current player is never touched |
| ClientScene.ClientGame.AddPlayer | src/rpg-multiplayer-game/src/client/src/phaser-client/scenes/Game.ts:732-788 | The player is recorded alive at its y, visible unless it is another player standing above a set frontier while players are hidden; no other player and nothing else changes |
| ClientScene.ClientGame.HandleServerOffline | src/rpg-multiplayer-game/src/client/src/phaser-client/scenes/Game.ts:301-307 | Sets the disconnected flag |
| ClientScene.ClientGame.HandleServerReconnect | src/rpg-multiplayer-game/src/client/src/phaser-client/scenes/Game.ts:723-730 | The players are cleared and the flag reset only after a disconnection; otherwise nothing changes |
| ClientScene.ClientGame.HandleFightInput | src/rpg-multiplayer-game/src/client/src/phaser-client/scenes/Game.ts:681-695 | A fresh space press sends a fight action and makes the current player fight (if it exists), only in fight mode and unless the current player is dead |
| ClientScene.ClientGame.HandlePlayerFightAction | src/rpg-multiplayer-game/src/client/src/phaser-client/scenes/Game.ts:426-436 | Another player's action makes it fight only in fight mode and when it is known |
| ClientScene.ClientGame.HandlePlayerHurt | src/rpg-multiplayer-game/src/client/src/phaser-client/scenes/Game.ts:438-454 | Only in fight mode and for a known player: the recorded health becomes the sent one and the player is hurt; otherwise nothing changes |
| ClientScene.ClientGame.HandlePlayerDead | src/rpg-multiplayer-game/src/client/src/phaser-client/scenes/Game.ts:456-473 | Only in fight mode and for a known player: health 0 and the player is killed. For the current player it can no longer move, and the all-false input is sent and applied iff it differs from the stored one |
| ClientScene.ClientGame.HandleStartFightWaitingRoom | src/rpg-multiplayer-game/src/client/src/phaser-client/scenes/Game.ts:405-412 | Opens the waiting room and leaves the other flags |
| ClientScene.ClientGame.HandleStartFight | src/rpg-multiplayer-game/src/client/src/phaser-client/scenes/Game.ts:414-424 | Fight mode goes on and the waiting room closes |
| ClientScene.ClientGame.HandleRestartGame | src/rpg-multiplayer-game/src/client/src/phaser-client/scenes/Game.ts:390-403 | All fight flags clear, every recorded health becomes the full health, every player is revived and the current player can move |
| ClientScene.ClientGame.RestorePlayersHealth | src/rpg-multiplayer-game/src/client/src/phaser-client/scenes/Game.ts:568-572 | Every recorded health becomes the full health, every player is revived and the current player can move again |
| PlayerTypes.NoInput | src/rpg-multiplayer-game/src/client/src/phaser-client/scenes/Game.ts:698-703 | The all-false movement input |
| PlayerTypes.AnimKey | src/rpg-multiplayer-game/src/client/src/phaser-client/characters/GenericLpc.ts:98 | An animation key is the avatar, a hyphen, then the animation name |
| PlayerTypes.Split | src/rpg-multiplayer-game/src/client/src/phaser-client/characters/GenericLpc.ts:115 | Splitting on '-' gives at least one part, none holding a hyphen |
| PlayerTypes.JoinSplit | src/rpg-multiplayer-game/src/client/src/phaser-client/characters/GenericLpc.ts:115-118 | Joining the split parts gives back the key |
| PlayerTypes.SplitJoin | src/rpg-multiplayer-game/src/client/src/phaser-client/characters/GenericLpc.ts:115-118 | Splitting joined hyphen-free parts gives back the parts |
| PlayerTypes.SetSegment | src/rpg-multiplayer-game/src/client/src/characters/GenericLpc.ts:60-61 | Assigning a part past the end lengthens the array with empty parts, as JavaScript arrays do; other parts are unchanged |
| PlayerTypes.ReplaceSegmentSpec | src/rpg-multiplayer-game/src/client/src/characters/GenericLpc.ts:60-62 | Rewriting a part to a hyphen-free name and rejoining leaves exactly that part changed |
| PlayerTypes.JoinHasHyphen | src/rpg-multiplayer-game/src/client/src/phaser-client/characters/GenericLpc.ts:116 | A name joined from hyphen-free parts holds a hyphen iff it has more than one part |
| PlayerTypes.WalkAnimation | src/rpg-multiplayer-game/src/client/src/characters/GenericLpc.ts:41-63 | Left, then right, then up, then down picks the walk animation, flipping for left and unflipping for right. With no flag the current key gets the idle part |
| PlayerTypes.IdleAfterAction | src/rpg-multiplayer-game/src/client/src/phaser-client/characters/GenericLpc.ts:114-118 | Rewriting the segment after the avatar's own segments turns `avatar-action-dir` into `avatar-idle-dir` |
| PlayerFactory.AvatarsDistinct | src/rpg-multiplayer-game/src/client/src/phaser-client/characters/PlayerFactory.ts:32-42 | The avatar list holds nine distinct names |
| PlayerFactory.FirstUnusedFrom | src/rpg-multiplayer-game/src/client/src/phaser-client/characters/PlayerFactory.ts:44-49 | The scan stops at the first unused avatar, every avatar before it being used |
| PlayerFactory.Allocate | src/rpg-multiplayer-game/src/client/src/phaser-client/characters/PlayerFactory.ts:44-50 | The key is in the new set and the set only grows. With an avatar free, the key is a new avatar added to the set; otherwise it is "nicolas-debin" and the set is unchanged |
| PlayerFactory.AllocateNext | src/rpg-multiplayer-game/src/client/src/phaser-client/characters/PlayerFactory.ts:44-49 | After the first j avatars are handed out, the next call hands out the avatar at index j |
| PlayerFactory.AllocationsFrom | src/rpg-multiplayer-game/src/client/src/phaser-client/characters/PlayerFactory.ts:32-49 | From the first j avatars handed out, the remaining calls hand out the rest of the list in order |
| PlayerFactory.FirstNineDistinct | src/rpg-multiplayer-game/src/client/src/phaser-client/characters/PlayerFactory.ts:32-49 | From an empty set, the first nine calls return the nine avatars in list order, pairwise distinct |
| PlayerFactory.ExhaustedAllocations | src/rpg-multiplayer-game/src/client/src/phaser-client/characters/PlayerFactory.ts:50 | Once every avatar is used, every call returns "nicolas-debin" and leaves the set unchanged |
| PlayerFactory.AvatarAllocator.constructor | src/rpg-multiplayer-game/src/client/src/phaser-client/characters/PlayerFactory.ts:29 | The set starts empty |
| PlayerFactory.AvatarAllocator.GetRandomAvatarKey | src/rpg-multiplayer-game/src/client/src/phaser-client/characters/PlayerFactory.ts:31-51 | The loop returns and records exactly what `Allocate` says |
| PlayerFactory.AvatarAllocator.FromPlayerState | src/rpg-multiplayer-game/src/client/src/phaser-client/characters/PlayerFactory.ts:53-67 | "generic-lpc" gets a freshly allocated avatar and the player id. "fauna" and "lizard" get their class and leave the set unchanged. Any other name builds nothing |
| PhaserLpc.FirstInactive | src/rpg-multiplayer-game/src/client/src/phaser-client/characters/GenericLpc.ts:139-142 | The pool hands out the first inactive arrow, all before it being active |
| PhaserLpc.Launch | src/rpg-multiplayer-game/src/client/src/phaser-client/characters/GenericLpc.ts:139-149 | Firing fills the chosen slot (new or reused) and changes no other arrow |
| PhaserLpc.ActiveCount | src/rpg-multiplayer-game/src/client/src/phaser-client/scenes/Game.ts:141-148 | All arrows are in flight iff the count equals the pool length, and none iff the count is 0 |
| PhaserLpc.LocalPoolBound | src/rpg-multiplayer-game/src/client/src/phaser-client/scenes/Game.ts:141-144 | With the scene's pool of at most 5 arrows, at most 5 are in flight, and `Group.get` yields nothing iff all 5 are |
| PhaserLpc.IsThrowingArrow | src/rpg-multiplayer-game/src/client/src/phaser-client/characters/GenericLpc.ts:167-175 | True iff the current key is one of the avatar's three shoot animations, each of which starts with the avatar name |
| PhaserLpc.IdleIndex | src/rpg-multiplayer-game/src/client/src/phaser-client/characters/GenericLpc.ts:116 | The part index is 1 iff the avatar has no hyphen; for avatars of one or two parts it is the number of avatar parts, so it indexes the action part |
| PhaserLpc.BloodSpray | src/rpg-multiplayer-game/src/client/src/phaser-client/characters/GenericLpc.ts:237-266 | Left and a missing side share the default spray (angle 380, offset (5, 10)); the offset is (0, 0) for up, (0, 10) for down and (-5, 10) for right |
| PhaserLpc.ShootAnimation | src/rpg-multiplayer-game/src/client/src/phaser-client/characters/GenericLpc.ts:177-204 | Left and right pick the side shot, flipped for left only; up and down pick their own; every pick is a shoot animation |
| PhaserLpc.StopAfterWalk | src/rpg-multiplayer-game/src/client/src/phaser-client/characters/GenericLpc.ts:96-119 | For an avatar of one or two hyphen-free parts, stopping after a walk plays that direction's idle animation |
| PhaserLpc.WalkIsNotShooting | src/rpg-multiplayer-game/src/client/src/phaser-client/characters/GenericLpc.ts:93-113 | A walk animation is never a shoot animation |
| PhaserLpc.WeaponGroup.constructor | src/rpg-multiplayer-game/src/client/src/phaser-client/scenes/Game.ts:141-148 | An empty pool with its maximum size |
| PhaserLpc.WeaponGroup.FreeSlot | src/rpg-multiplayer-game/src/client/src/phaser-client/characters/GenericLpc.ts:139-147 | The slot is the first inactive arrow, or a new one while the pool is below its maximum. There is none iff every arrow is active and the pool is full |
| PhaserLpc.WeaponGroup.Expire | src/rpg-multiplayer-game/src/client/src/phaser-client/characters/GenericLpc.ts:155-158 | An active arrow is killed, hidden and disabled; an inactive one is left alone, so no arrow is released twice |
| PhaserLpc.Lpc.constructor | src/rpg-multiplayer-game/src/client/src/phaser-client/characters/GenericLpc.ts:25-76 | The sprite sits the error offset away from the requested spot, plays `idle-down`, and is alive with no weapon group |
| PhaserLpc.Lpc.SetThrowableWeapon | src/rpg-multiplayer-game/src/client/src/phaser-client/scenes/Game.ts:738-751 | Attaches the group and changes nothing else |
| PhaserLpc.Lpc.Update | src/rpg-multiplayer-game/src/client/src/phaser-client/characters/GenericLpc.ts:86-120 | The position and orientation are what the base update left. Nothing else changes while dead or shooting. Otherwise the walk or idle choice is played, rewriting the third part when the avatar holds a hyphen and the second otherwise |
| PhaserLpc.Lpc.ThrowArrow | src/rpg-multiplayer-game/src/client/src/phaser-client/characters/GenericLpc.ts:128-165 | Returns true iff there is a group, no shoot animation plays and the pool has a free arrow. Then the arrow is fired at the player's spot and orientation with its id and its expiry is scheduled; otherwise nothing changes |
| PhaserLpc.Lpc.ArrowExpires | src/rpg-multiplayer-game/src/client/src/phaser-client/characters/GenericLpc.ts:152-162 | The timer releases its arrow only if it is still active |
| PhaserLpc.Lpc.HandleFightAnimation | src/rpg-multiplayer-game/src/client/src/phaser-client/characters/GenericLpc.ts:177-204 | Plays the shoot animation for the orientation, queues the previous one and sets the flip |
| PhaserLpc.Lpc.AnimationRepeats | src/rpg-multiplayer-game/src/client/src/phaser-client/characters/GenericLpc.ts:201 | The queued animation, if any, takes over |
| PhaserLpc.Lpc.Fight | src/rpg-multiplayer-game/src/client/src/phaser-client/characters/GenericLpc.ts:206-213 | Succeeds iff the base fight and the throw both succeed. Then the free slot holds an active arrow at the player's spot and orientation with its id, its expiry is scheduled, and the shoot animation plays; otherwise the pool and the animation are unchanged |
| PhaserLpc.Lpc.Hurt | src/rpg-multiplayer-game/src/client/src/phaser-client/characters/GenericLpc.ts:228-266 | After the base hurt: nothing more when dead. Otherwise the bar drops by the amount and, with blood on, the spray is set for the hit's side |
| PhaserLpc.Lpc.WinnerAnimation | src/rpg-multiplayer-game/src/client/src/phaser-client/characters/GenericLpc.ts:293-298 | A dead player is left alone; otherwise plays the winner animation |
| PhaserLpc.Lpc.Kill | src/rpg-multiplayer-game/src/client/src/phaser-client/characters/GenericLpc.ts:300-306 | A dead player is left alone; otherwise it dies, plays the die animation and hides its bar |
| PhaserLpc.Lpc.Revive | src/rpg-multiplayer-game/src/client/src/phaser-client/characters/GenericLpc.ts:308-311 | The player is alive and its bar is back to 100 and hidden |
| LegacyLpc.TwoSegmentStop | src/rpg-multiplayer-game/src/client/src/characters/GenericLpc.ts:59-63 | For a two-part avatar name, stopping plays the idle animation of the direction |
| LegacyLpc.OneSegmentStop | src/rpg-multiplayer-game/src/client/src/characters/GenericLpc.ts:59-63 | For a one-part avatar name, the fixed index rewrites the direction instead, giving `avatar-action-idle` |
| LegacyLpc.Character.constructor | src/rpg-multiplayer-game/src/client/src/characters/GenericLpc.ts:17-34 | The sprite sits at (x+16, y+16) and plays the avatar's `idle-down` |
| LegacyLpc.Character.Update | src/rpg-multiplayer-game/src/client/src/characters/GenericLpc.ts:36-64 | The position is what the base update left. Plays the walk choice by priority, or with no flag the current key with its third part set to `idle` |
| Fauna.Tick | src/dungeon-crawler/src/characters/Fauna.ts:119-135 | In DAMAGE the timer accumulates and, at 250 ms, returns to IDLE with the timer reset. IDLE and DEAD are unchanged |
| Fauna.DeadStaysDead | src/dungeon-crawler/src/characters/Fauna.ts:122-134 | No run of frames leaves DEAD |
| Fauna.RecoversAfter | src/dungeon-crawler/src/characters/Fauna.ts:126-133 | Once non-negative frame times since the hit add up to 250 ms, the hero is IDLE with the timer reset |
| Fauna.IdleStaysIdle | src/dungeon-crawler/src/characters/Fauna.ts:123-124 | IDLE is not changed by the timer |
| Fauna.KnifeDirection | src/dungeon-crawler/src/characters/Fauna.ts:75-97 | The knife direction is a unit vector along one axis |
| Fauna.KnifeFollowsFacing | src/dungeon-crawler/src/characters/Fauna.ts:75-97 | For `fauna-<action>-<dir>`: up, down, or sideways by the flip |
| Fauna.ThrownKnife | src/dungeon-crawler/src/characters/Fauna.ts:99-115 | A knife flies along exactly one axis at speed 300 and starts 14 pixels from the thrower on that axis, on the side it flies towards |
| Fauna.RunMove | src/dungeon-crawler/src/characters/Fauna.ts:150-176 | Left before right before up before down at speed 100 on one axis. The velocity is zero iff no key is held, and then the idle animation plays |
| Fauna.Hero.constructor | src/dungeon-crawler/src/characters/Fauna.ts:24-45 | Health 3, IDLE, timer 0, `fauna-idle-down`, no knives |
| Fauna.Hero.SetKnives | src/dungeon-crawler/src/characters/Fauna.ts:47-49 | Gives the hero knives and changes nothing else |
| Fauna.Hero.HandleDamage | src/dungeon-crawler/src/characters/Fauna.ts:51-70 | Ignored at health 0 or in DAMAGE. Otherwise exactly one point is lost, then DEAD with zero velocity at 0, else DAMAGE with the timer restarted and the knock-back velocity. Health stays in 0..3 |
| Fauna.Hero.PreUpdate | src/dungeon-crawler/src/characters/Fauna.ts:119-135 | The health state and timer advance as `Tick` says; recovering clears the tint |
| Fauna.Hero.ThrowKnive | src/dungeon-crawler/src/characters/Fauna.ts:72-117 | Without knives nothing happens. Otherwise exactly the `ThrownKnife` for the current key, flip and position is appended; position, animation and velocity are unchanged |
| Fauna.Hero.Update | src/dungeon-crawler/src/characters/Fauna.ts:137-177 | Keys are ignored in DAMAGE, in DEAD and without keys. A fresh space press appends the thrown knife when the hero has knives and otherwise changes nothing. Otherwise the hero runs as `RunMove` says. Position and health are never changed |
| FlappyGame.Between | src/flappy-bird/src/scenes/Game.ts:293-300 | A draw between lo and hi lies in [lo, hi] |
| FlappyGame.GenerateGap | src/flappy-bird/src/scenes/Game.ts:281-303 | For a bird height in whole pixels, the top pipe lies in [10, H - 2h - 122] and the bottom one in [top + 2h, H - 122], so the gap is at least twice the bird's height |
| FlappyGame.MaxX | src/flappy-bird/src/scenes/Game.ts:241-252 | The right-most x is at least every pipe's x and is some pipe's x |
| FlappyGame.OffscreenCount | src/flappy-bird/src/scenes/Game.ts:201 | The number of off-screen pipes is 0 iff no pipe is off screen |
| FlappyGame.Announced | src/flappy-bird/src/scenes/Game.ts:232-238 | The scores announced by n successive one-step gains from a score: n of them, the k-th being the score plus k + 1 |
| FlappyGame.InitialPipes | src/flappy-bird/src/scenes/Game.ts:135-144 | The layout of the six drawn pairs: twelve pipes (their positions are stated by `InitialLayout`) |
| FlappyGame.InitialLayout | src/flappy-bird/src/scenes/Game.ts:131-145 | Pairs are 300 pixels apart, bottoms at even indices, and the front pair is at x = 2100 |
| FlappyGame.WrapAdvancesFront | src/flappy-bird/src/scenes/Game.ts:190-209 | Every off-screen pipe moves 300 past the front one and the rest stay, so the front advances by 300 when anything wrapped |
| FlappyGame.Scene.constructor | src/flappy-bird/src/scenes/Game.ts:31-33 | The score starts at 0 with no pipes |
| FlappyGame.Scene.Init | src/flappy-bird/src/scenes/Game.ts:31-33 | The score becomes 0 |
| FlappyGame.Scene.UpdateScore | src/flappy-bird/src/scenes/Game.ts:232-238 | The score becomes max(0, score + increase) and is announced, so it is never negative |
| FlappyGame.Scene.CreatePipes | src/flappy-bird/src/scenes/Game.ts:131-145 | The new pipe array is exactly `InitialPipes` of the drawn gaps |
| FlappyGame.Scene.CreateHeart | src/flappy-bird/src/scenes/Game.ts:147-167 | The heart sits at the right edge, half-way down, hidden and not collectable |
| FlappyGame.Scene.RightMostPipePosition | src/flappy-bird/src/scenes/Game.ts:241-252 | The loop returns the right-most x: at least every pipe's x, and some pipe's x |
| FlappyGame.Scene.WrapPipes | src/flappy-bird/src/scenes/Game.ts:190-209 | Every pipe becomes its wrap against the maximum taken once before the loop. While flying, the score gains half a point per wrapped pipe and each new score is announced in turn |
| FlappyGame.Scene.WrapPipe | src/flappy-bird/src/scenes/Game.ts:197-207 | One pipe is wrapped if off screen, and then while flying the score gains half a point and the new score is announced; the other pipes are untouched |
| FlappyGame.Scene.WrapHeart | src/flappy-bird/src/scenes/Game.ts:211-230 | While the bird is hurt, an off-screen heart reappears 150 past the front pipe at the drawn height, visible and collectable. Otherwise nothing changes |
| FlappyGame.Scene.BlinkingStarts | src/flappy-bird/src/scenes/Game.ts:109-113 | The pipe collider goes off and one point is lost, never going below zero |
| FlappyGame.Scene.BlinkingStops | src/flappy-bird/src/scenes/Game.ts:114-116 | The pipe collider goes back on |
| FlappyGame.Scene.HandlePlayerHeartOverlap | src/flappy-bird/src/scenes/Game.ts:264-279 | The bird gains a life, and the heart is hidden and no longer collectable |

## Left out

- Rendering, particles, tints, tweens, cameras, rain and dark mode are presentation only and are not modelled. The blood spray and health bar are kept only as the settings and calls a hurt makes.
- Arcade physics is not modelled. Bodies move only through `GameScene.PhysicsStep`. Contact sides, velocities and the flappy bird's body height are inputs.
- Socket.IO transport is a log of emissions. Not modelled:
  - the 30-second `PlayersSync` broadcast and the socket disconnect calls;
  - the lookup of a kicked-out player's socket, which is an input to `HandleKickout`.
- Phaser timers are explicit fire methods. `TimerEvent.remove(true)` is assumed to drop the handle while the countdown callback still runs; the model keeps the callback pending.
- JSON parsing of the handshake is the `Handshake` input; the model does not parse JSON.
- Randomness is an input: spawn points, the heart's height, and `Phaser.Math.Between` draws (as fractions).
- The player factory's unused module-level random avatar helper is not modelled.
- `vec.angle()` and float velocities of Fauna's knife are not modelled; only the unit direction and the integer speed are kept. The case where the knife pool returns nothing is not modelled.
- Code this model cannot see becomes parameters, flags or assumptions:
  - the `Queue` class and the server `gameFightState` (a sequence and a set plus a flag);
  - the `Player` base classes: the outcome of `fight` and of `hurt` (death) are parameters, and so are the position and orientation the base `update` leaves;
  - `gameState`, `gameVotingManager`, `AnimationHandler`, and `AbstractThrowableWeapon.fire`;
  - Phaser `Group.get`, assumed to reuse the first inactive member or add one below `maxSize`.
- The animation-name constants are taken as `walk-side`, `walk-up`, `walk-down`, `idle-down`, `shoot-side`, `shoot-up`, `shoot-down`, `winner` and `die`. Their definitions are not part of this model.
- The avatar constants missing from the avatar key file are taken as the hyphenated names.
- Phaser group iteration order is not modelled. The server loops take players in any order. Every result stated here holds whatever the order.
- The avatar mapper's lookup of names inherited from `Object.prototype` is not modelled; any name other than the three yields `None`.
- The server's settings storage, spawn-point drawing, voting zones and the client's handling of left and status-updated players are not modelled. The same goes for the voting-manager calls of the settings `autorun`.
- The flappy-bird `handlePlayerObjectOverlap` calls `player.handleDamage`, whose code is not part of this model. Also not modelled: parallax, ground alignment and world-bound toggling in `update`.
- ServerGame.GameScene.HandleJoinFight: requires the joining player to be registered, since the handler is only installed for connected players.
- ServerGame.GameScene.HandleConnect: requires a socket id that is not registered yet, as socket ids are fresh per connection.
- ServerGame.GameScene.HandleFightAction: the server player's own `fight()` call is not modelled, since the server player class is not part of this model; only the relay to the other clients is.
- ClientScene.ClientGame.HandleMovementInput: before the current player exists the source's `update` call throws a TypeError, which aborts the rest of that frame (including the fight input check). The model skips the call and carries on.
- ClientScene.ClientGame.RestorePlayersHealth: `gameState.restorePlayersHealth` is not part of this model; it is taken to set every recorded health to the full health, a constructor parameter.
- FlappyGame.GenerateGap: the bird's body height is taken as a whole number of pixels. With a fractional Arcade body height the bounds can be missed by less than a pixel: for a height of 24.3 the top pipe can reach 470, above 469.4, and the gap can be 48, below 48.6.
- Positions, sizes, pipe and heart widths, display heights, the camera scroll offset, velocities, Fauna's knock-back vector and frame times are integers in the model. In the source they are JavaScript floats, so effects of fractional values are not captured.
- ClientScene.ClientGame.AddPlayer: only the bookkeeping is modelled (the player recorded, then the visibility rule). Not modelled: building the character, its depth, physics body, vision mask and weapon group, the voting-manager and global-state registration, and the health-bar visibility.
- ClientScene.ClientGame.constructor: the hide-while-voting setting is fixed when the scene is built. A later change of that setting through the global state, and the autorun that re-applies the visibility rule, are not modelled.
- ClientScene.ClientGame.RestorePlayersHealth: `revive()` on each player is not logged in `calls`; it shows only as the player no longer being dead.
- PhaserLpc.Lpc.Hurt: the health-bar call log stands for the bar; the bar's value and clamping are not modelled.

## Findings

| source | as written | input that shows it | evidently intended | confidence | as-written member | corrected member |
|---|---|---|---|---|---|---|
| src/rpg-multiplayer-game/src/client/src/phaser-client/scenes/Game.ts:612-627 | The overlap is registered weapons first and players second (line 237), so Phaser passes the weapon first; the handler casts the first argument to the player and the second to the weapon | An arrow thrown by "a" overlaps the living player "b", with no `id` field on the arrow and no `thrownBy` field on the player: `undefined === undefined` makes the handler return, so the arrow flies on | The arrow is switched off and hidden unless it hit its thrower or a dead player | not executed; medium (the weapon and player classes are not part of this model) | ClientScene.StruckPlayerAsWritten, ClientScene.OverlapAsWrittenIgnoresHit | ClientScene.WeaponAfterOverlap |
