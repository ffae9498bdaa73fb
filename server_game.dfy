/** The authoritative server scene of the multiplayer RPG: the per-player state
    dictionary, the per-player FIFO of movement inputs, the fighter registry with
    its `fightMode` flag, the tick that applies one input per player and
    broadcasts the players whose position or orientation changed, hit resolution,
    the last-fighter-standing check, the fight waiting room, and join, leave and
    restart.

    Network events are appended to `outbox`; Phaser's delayed calls are counted in
    `pendingCountdowns` / `pendingRestarts` and run by the explicit `...Fires`
    methods; the physics bodies of the players are the `sprites` map, moved only by
    `PhysicsStep`, which stands for Arcade physics. */
module ServerGame {
  import opened PlayerTypes

  type PlayerId = string

  datatype Position = Position(x: int, y: int)

  /** The settings a client sends in its handshake and relays on change. */
  datatype PlayerSettings = PlayerSettings(
    username: string, avatarName: string, isVoter: bool, hidePlayersWhileVoting: bool)

  /** An entry of `playersStates`. */
  datatype PlayerState = PlayerState(
    x: int, y: int, orientation: Orientation, health: int,
    votingZone: Option<string>, settings: PlayerSettings, movementInput: MovementInput)

  /** What `addPlayerFromInitialState` receives (the avatar setting is not modelled). */
  datatype PlayerInitialState = PlayerInitialState(
    playerId: PlayerId, x: int, y: int, votingZone: Option<string>,
    settings: PlayerSettings, health: int, orientation: Orientation)

  /** A player state without its `playerSettings`, as a status update carries it. */
  datatype StatusUpdate = StatusUpdate(
    x: int, y: int, orientation: Orientation, health: int,
    votingZone: Option<string>, movementInput: MovementInput)

  /** A player state without its `movementInput`, as the initial-states map carries it. */
  datatype InitialView = InitialView(
    x: int, y: int, orientation: Orientation, health: int,
    votingZone: Option<string>, settings: PlayerSettings)

  /** The physics body of a player: where Arcade physics has put it, and the last
      input its `update` was given by the tick. */
  datatype Sprite = Sprite(x: int, y: int, orientation: Orientation, input: Option<MovementInput>)

  /** Which sides of the struck player's body report contact. */
  datatype Touching = Touching(up: bool, down: bool, left: bool, right: bool)

  /** The outcome of parsing the `playerSettings` handshake query. `ParsedFalsy`
      is a query that parses to a falsy JSON value such as `null` or `0`. */
  datatype Handshake = Missing | Invalid | ParsedFalsy | Parsed(settings: PlayerSettings)

  datatype Event =
    | PlayersInitialStatusInfo(players: map<PlayerId, InitialView>)
    | PlayersNew(newPlayer: InitialView)
    | PlayersLeft(leftId: PlayerId)
    | PlayersStatusUpdate(changed: map<PlayerId, StatusUpdate>)
    | PlayerSettingsUpdate(newSettings: PlayerSettings)
    | StartFightWaitingRoom
    | StartFight(fighterIds: set<PlayerId>)
    | PlayerFightAction(actor: PlayerId, ax: int, ay: int, aOrientation: Orientation)
    | PlayerHurt(hurtId: PlayerId, health: int, damage: int, hurtOrientation: Orientation)
    | PlayerDead(deadId: PlayerId)
    | EndFight(winnerId: PlayerId)
    | RestartGameEvent
    | PlayerKickout
    | ServerError(message: string)

  /** `io.emit` goes to everyone, `socket.emit` to one peer, `socket.broadcast.emit`
      to everyone but the sender. */
  datatype Audience = Everyone | Peer(peer: PlayerId) | AllBut(sender: PlayerId)

  datatype Emission = Emission(to: Audience, event: Event)

  /** The side the hurt event reports: up, else down, else right, else left. */
  function HurtOrientation(t: Touching): (o: Orientation)
    ensures o == Up <==> t.up
    ensures o == Down ==> t.down
    ensures o == Right ==> t.right && !t.down
    ensures o == Left ==> !t.up && !t.down && !t.right
  {
    if t.up then Up else if t.down then Down else if t.right then Right else Left
  }

  /** The fighters that are still alive. */
  function Alive(fighters: set<PlayerId>, states: map<PlayerId, PlayerState>): set<PlayerId>
    requires fighters <= states.Keys
  {
    set id | id in fighters && states[id].health > 0
  }

  /** What `handleWinCondition` broadcasts: nothing outside fight mode; otherwise
      `EndFight` when exactly one fighter is alive and its id is truthy. */
  ghost function WinEmissions(fightMode: bool, fighters: set<PlayerId>,
                              states: map<PlayerId, PlayerState>): seq<Emission>
    requires fighters <= states.Keys
  {
    var alive := Alive(fighters, states);
    if fightMode && |alive| == 1 then
      var w :| w in alive;
      if w != "" then [Emission(Everyone, EndFight(w))] else []
    else []
  }

  function StatusOf(s: PlayerState): StatusUpdate
  {
    StatusUpdate(s.x, s.y, s.orientation, s.health, s.votingZone, s.movementInput)
  }

  function InitialViewOf(s: PlayerState): InitialView
  {
    InitialView(s.x, s.y, s.orientation, s.health, s.votingZone, s.settings)
  }

  /** The stored state after the tick copied the body's position and orientation. */
  function Synced(s: PlayerState, p: Sprite): PlayerState
  {
    s.(x := p.x, y := p.y, orientation := p.orientation)
  }

  predicate Changed(s: PlayerState, p: Sprite)
  {
    s.x != p.x || s.y != p.y || s.orientation != p.orientation
  }

  /** The status-update delta of one tick: the players whose body moved or turned
      since the stored state, each with its synced state. */
  function DeltaOf(states: map<PlayerId, PlayerState>, sprites: map<PlayerId, Sprite>)
    : map<PlayerId, StatusUpdate>
  {
    map id | id in states && id in sprites && Changed(states[id], sprites[id])
      :: StatusOf(Synced(states[id], sprites[id]))
  }

  function SyncAll(states: map<PlayerId, PlayerState>, sprites: map<PlayerId, Sprite>)
    : map<PlayerId, PlayerState>
  {
    map id | id in states :: if id in sprites then Synced(states[id], sprites[id]) else states[id]
  }

  /** The broadcast of a tick: one status update, and only when the delta is not empty. */
  function StatusBroadcast(delta: map<PlayerId, StatusUpdate>): seq<Emission>
  {
    if |delta| > 0 then [Emission(Everyone, PlayersStatusUpdate(delta))] else []
  }

  /** Once the stored states are synced with the bodies, a tick in which no body
      moves has an empty delta and so broadcasts nothing. */
  lemma SyncedDeltaIsEmpty(states: map<PlayerId, PlayerState>, sprites: map<PlayerId, Sprite>)
    ensures DeltaOf(SyncAll(states, sprites), sprites) == map[]
    ensures StatusBroadcast(DeltaOf(SyncAll(states, sprites), sprites)) == []
  {
    var d := DeltaOf(SyncAll(states, sprites), sprites);
    assert d.Keys == {};
  }

  function Dequeued(q: seq<MovementInput>): seq<MovementInput>
  {
    if q == [] then [] else q[1..]
  }

  /** A body after the tick handed it the head of its queue, if any. */
  function Front(q: seq<MovementInput>): seq<MovementInput>
  {
    if q == [] then [] else [q[0]]
  }

  function Fed(p: Sprite, q: seq<MovementInput>): Sprite
  {
    if q == [] then p else p.(input := Some(q[0]))
  }

  function Respawned(p: Sprite, spawn: Position): Sprite
  {
    p.(x := spawn.x, y := spawn.y)
  }

  /** A fighter set as large as the player set, and inside it, is the player set. */
  lemma {:induction false} AllFighters(fighters: set<PlayerId>, players: set<PlayerId>)
    requires fighters <= players && |fighters| == |players|
    ensures fighters == players
  {
    if fighters != players {
      var x :| x in players && x !in fighters;
      assert fighters <= players - {x};
      SubsetCard(fighters, players - {x});
    }
  }

  lemma {:induction false} SubsetCard(a: set<PlayerId>, b: set<PlayerId>)
    requires a <= b
    ensures |a| <= |b|
  {
    if a != {} {
      var x :| x in a;
      SubsetCard(a - {x}, b - {x});
    }
  }

  /** The stored states with the players in `done` already synced with their bodies. */
  function SyncedOn(states: map<PlayerId, PlayerState>, sprites: map<PlayerId, Sprite>, done: set<PlayerId>)
    : map<PlayerId, PlayerState>
  {
    map id | id in states :: if id in done && id in sprites then Synced(states[id], sprites[id]) else states[id]
  }

  /** The part of the delta that concerns the players in `done`. */
  function DeltaOn(states: map<PlayerId, PlayerState>, sprites: map<PlayerId, Sprite>, done: set<PlayerId>)
    : map<PlayerId, StatusUpdate>
  {
    map id | id in done && id in states && id in sprites && Changed(states[id], sprites[id])
      :: StatusOf(Synced(states[id], sprites[id]))
  }

  lemma SyncStep(states: map<PlayerId, PlayerState>, sprites: map<PlayerId, Sprite>, done: set<PlayerId>, id: PlayerId)
    requires id in states && id in sprites && id !in done
    ensures SyncedOn(states, sprites, done)[id] == states[id]
    ensures SyncedOn(states, sprites, done + {id})
            == SyncedOn(states, sprites, done)[id := Synced(states[id], sprites[id])]
    ensures DeltaOn(states, sprites, done + {id})
            == if Changed(states[id], sprites[id])
               then DeltaOn(states, sprites, done)[id := StatusOf(Synced(states[id], sprites[id]))]
               else DeltaOn(states, sprites, done)
  {
  }

  lemma SyncDone(states: map<PlayerId, PlayerState>, sprites: map<PlayerId, Sprite>)
    ensures SyncedOn(states, sprites, sprites.Keys) == SyncAll(states, sprites)
    ensures DeltaOn(states, sprites, sprites.Keys) == DeltaOf(states, sprites)
  {
  }

  /** The queues and bodies with the players in `done` already served by the tick. */
  function DequeuedOn(queues: map<PlayerId, seq<MovementInput>>, done: set<PlayerId>)
    : map<PlayerId, seq<MovementInput>>
  {
    map id | id in queues :: if id in done then Dequeued(queues[id]) else queues[id]
  }

  function FedOn(sprites: map<PlayerId, Sprite>, queues: map<PlayerId, seq<MovementInput>>, done: set<PlayerId>)
    : map<PlayerId, Sprite>
  {
    map id | id in sprites :: if id in done && id in queues then Fed(sprites[id], queues[id]) else sprites[id]
  }

  lemma DequeueStep(queues: map<PlayerId, seq<MovementInput>>, sprites: map<PlayerId, Sprite>,
                    done: set<PlayerId>, id: PlayerId)
    requires id in queues && id in sprites && id !in done
    ensures DequeuedOn(queues, done)[id] == queues[id]
    ensures FedOn(sprites, queues, done)[id] == sprites[id]
    ensures DequeuedOn(queues, done + {id}) == DequeuedOn(queues, done)[id := Dequeued(queues[id])]
    ensures FedOn(sprites, queues, done + {id}) == FedOn(sprites, queues, done)[id := Fed(sprites[id], queues[id])]
  {
  }

  lemma DequeueDone(queues: map<PlayerId, seq<MovementInput>>, sprites: map<PlayerId, Sprite>)
    requires forall id :: id in queues <==> id in sprites
    ensures DequeuedOn(queues, queues.Keys) == map id | id in queues :: Dequeued(queues[id])
    ensures FedOn(sprites, queues, queues.Keys) == map id | id in sprites :: Fed(sprites[id], queues[id])
  {
  }

  /** The head a tick takes, followed by what it leaves queued, is the queue:
      inputs leave a queue in the order they arrived. */
  lemma FrontDequeued(q: seq<MovementInput>)
    ensures Front(q) + Dequeued(q) == q
  {
    if q != [] {
      assert [q[0]] + q[1..] == q;
    }
  }

  /** Adding one fighter to the ones already counted adds it to the living ones
      exactly when its health is positive. */
  lemma AliveStep(seen: set<PlayerId>, id: PlayerId, states: map<PlayerId, PlayerState>)
    requires seen <= states.Keys && id in states && id !in seen
    ensures id !in Alive(seen, states)
    ensures states[id].health > 0 ==> Alive(seen + {id}, states) == Alive(seen, states) + {id}
    ensures states[id].health <= 0 ==> Alive(seen + {id}, states) == Alive(seen, states)
  {
  }

  /** The per-player pass of the first half of a tick, on the queues and bodies:
      each queue gives up its oldest input, if any, and that input is handed to
      the player's body. */
  method DequeueAll(queues: map<PlayerId, seq<MovementInput>>, sprites: map<PlayerId, Sprite>)
    returns (qs: map<PlayerId, seq<MovementInput>>, sp: map<PlayerId, Sprite>)
    requires forall id :: id in queues <==> id in sprites
    ensures qs == map id | id in queues :: Dequeued(queues[id])
    ensures sp == map id | id in sprites :: Fed(sprites[id], queues[id])
    ensures forall id :: id in queues ==> Front(queues[id]) + qs[id] == queues[id]
  {
    qs, sp := queues, sprites;
    var rest := queues.Keys;
    ghost var done: set<PlayerId> := {};
    while rest != {}
      invariant rest + done == queues.Keys && rest !! done
      invariant qs == DequeuedOn(queues, done) && sp == FedOn(sprites, queues, done)
      decreases rest
    {
      var id :| id in rest;
      DequeueStep(queues, sprites, done, id);
      if qs[id] != [] {
        var input := qs[id][0];
        qs := qs[id := qs[id][1..]];
        sp := sp[id := sp[id].(input := Some(input))];
      }
      rest := rest - {id};
      done := done + {id};
    }
    DequeueDone(queues, sprites);
    forall id | id in queues
      ensures Front(queues[id]) + qs[id] == queues[id]
    {
      FrontDequeued(queues[id]);
    }
  }

  /** The per-player pass of the second half of a tick: every stored state takes
      its body's x, y and orientation, and the players for which one of them
      changed are collected with their synced state. */
  method SyncWithBodies(states: map<PlayerId, PlayerState>, sprites: map<PlayerId, Sprite>)
    returns (st: map<PlayerId, PlayerState>, changed: map<PlayerId, StatusUpdate>)
    requires forall id :: id in states <==> id in sprites
    ensures st == SyncAll(states, sprites)
    ensures changed == DeltaOf(states, sprites)
    ensures forall id :: id in changed <==> id in states && Changed(states[id], sprites[id])
  {
    st := states;
    changed := map[];
    var rest := sprites.Keys;
    ghost var done: set<PlayerId> := {};
    while rest != {}
      invariant rest + done == sprites.Keys && rest !! done
      invariant st == SyncedOn(states, sprites, done) && changed == DeltaOn(states, sprites, done)
      decreases rest
    {
      var id :| id in rest;
      SyncStep(states, sprites, done, id);
      var s := st[id];
      var p := sprites[id];
      var playerHasMoved := s.x != p.x || s.y != p.y;
      var orientationHasChanged := s.orientation != p.orientation;
      st := st[id := s.(x := p.x, y := p.y, orientation := p.orientation)];
      if playerHasMoved || orientationHasChanged {
        changed := changed[id := StatusOf(st[id])];
      }
      rest := rest - {id};
      done := done + {id};
    }
    SyncDone(states, sprites);
  }

  /** The health of a player hit `hits` times since it was full, each hit taking
      `damage` off without any clamping. */
  function HealthAfter(full: int, damage: int, hits: nat): int
  {
    if hits == 0 then full else HealthAfter(full, damage, hits - 1) - damage
  }

  /** `h` is a whole number of decrements: 0, `damage`, `2 * damage`, ... */
  predicate OnGrid(h: int, damage: int)
    requires damage > 0
    decreases if h < 0 then 0 else h
  {
    h == 0 || (h >= damage && OnGrid(h - damage, damage))
  }

  /** When the full health is a multiple of the decrement and every hit lands on a
      player whose health is still positive (the guard of the overlap handler),
      health never drops below 0 and stays a multiple of the decrement, so the
      lethal hit lands exactly on 0. */
  lemma {:induction false} HealthNeverNegative(full: int, damage: int, hits: nat)
    requires damage > 0 && OnGrid(full, damage)
    requires forall j :: 0 <= j < hits ==> HealthAfter(full, damage, j) > 0
    ensures HealthAfter(full, damage, hits) >= 0
    ensures OnGrid(HealthAfter(full, damage, hits), damage)
  {
    if hits > 0 {
      HealthNeverNegative(full, damage, hits - 1);
      assert HealthAfter(full, damage, hits - 1) > 0;
    }
  }

  /** Hitting a player from `full` once and then `hits` more times is hitting
      it `hits` times from `full - damage`. */
  lemma {:induction false} HealthAfterFirstHit(full: int, damage: int, hits: nat)
    ensures HealthAfter(full, damage, hits + 1) == HealthAfter(full - damage, damage, hits)
  {
    if hits > 0 {
      HealthAfterFirstHit(full, damage, hits - 1);
    }
  }

  /** The converse of `HealthNeverNegative`: when the full health is positive
      and not a multiple of the decrement, the `n`-th hit lands on a player
      whose health is still positive and leaves it below 0, skipping 0. */
  lemma {:induction false} OffGridHealthGoesNegative(full: int, damage: int) returns (n: nat)
    requires damage > 0 && full > 0 && !OnGrid(full, damage)
    ensures forall j :: 0 <= j < n ==> HealthAfter(full, damage, j) > 0
    ensures HealthAfter(full, damage, n) < 0
    decreases full
  {
    if full - damage <= 0 {
      assert full - damage != 0;
      n := 1;
      assert HealthAfter(full, damage, 1) == full - damage;
    } else {
      var m := OffGridHealthGoesNegative(full - damage, damage);
      n := m + 1;
      HealthAfterFirstHit(full, damage, m);
      forall j | 0 <= j < n
        ensures HealthAfter(full, damage, j) > 0
      {
        if j > 0 {
          HealthAfterFirstHit(full, damage, j - 1);
        }
      }
    }
  }

  /** Health is not clamped: with a full health of 100 and a decrement of 30 the
      first three hits leave 70, 40 and 10, the value 0 is skipped, no
      `PlayerDead` is broadcast, and the fourth hit leaves -20. */
  lemma UnclampedHealthSkipsZero()
    ensures !OnGrid(100, 30)
    ensures forall j :: 0 <= j < 4 ==> HealthAfter(100, 30, j) > 0
    ensures HealthAfter(100, 30, 4) == -20
  {
    assert HealthAfter(100, 30, 3) == 10;
    assert !OnGrid(10, 30);
  }

  class GameScene {
    /** FULL_HEALTH and HEALTH_DAMAGE_DECREASE of the player class. */
    const fullHealth: int
    const damage: int

    var states: map<PlayerId, PlayerState>
    var queues: map<PlayerId, seq<MovementInput>>
    /** The Phaser `players` group: one body per registered player. */
    var sprites: map<PlayerId, Sprite>
    /** The fighter registry and fight flag of the server fight state. */
    var fighters: set<PlayerId>
    var fightMode: bool
    var outbox: seq<Emission>
    /** Whether `fightWaitingRoomTimerEvent` refers to a timer. */
    var countdownHandle: bool
    var pendingCountdowns: nat
    var pendingRestarts: nat

    ghost predicate Valid()
      reads this
    {
      && (forall id :: id in states <==> id in queues)
      && (forall id :: id in states <==> id in sprites)
      && fighters <= states.Keys
    }

    constructor (fullHealth: int, damage: int)
      ensures Valid()
      ensures this.fullHealth == fullHealth && this.damage == damage
      ensures states == map[] && queues == map[] && sprites == map[]
      ensures fighters == {} && !fightMode && outbox == []
      ensures !countdownHandle && pendingCountdowns == 0 && pendingRestarts == 0
    {
      this.fullHealth := fullHealth;
      this.damage := damage;
      states, queues, sprites := map[], map[], map[];
      fighters, fightMode, outbox := {}, false, [];
      countdownHandle, pendingCountdowns, pendingRestarts := false, 0, 0;
    }

    /** Counts the living fighters and remembers the last one seen; there is a
        winner exactly when one fighter is alive, and it is that fighter. */
    method CheckFightWinCondition() returns (winner: Option<PlayerId>)
      requires fighters <= states.Keys
      ensures winner.Some? <==> |Alive(fighters, states)| == 1
      ensures winner.Some? ==> Alive(fighters, states) == {winner.value}
    {
      var rest := fighters;
      var alivePlayers := 0;
      var last: PlayerId := "";
      ghost var seen: set<PlayerId> := {};
      while rest != {}
        invariant rest + seen == fighters && rest !! seen
        invariant alivePlayers == |Alive(seen, states)|
        invariant alivePlayers == 1 ==> Alive(seen, states) == {last}
        modifies {}
        decreases rest
      {
        var id :| id in rest;
        AliveStep(seen, id, states);
        if states[id].health > 0 {
          alivePlayers := alivePlayers + 1;
          last := id;
        }
        rest := rest - {id};
        seen := seen + {id};
      }
      winner := if alivePlayers == 1 then Some(last) else None;
    }

    method HandleWinCondition()
      requires Valid()
      modifies this
      ensures Valid()
      ensures outbox == old(outbox) + WinEmissions(fightMode, fighters, states)
      ensures pendingRestarts == old(pendingRestarts) + |WinEmissions(fightMode, fighters, states)|
      ensures states == old(states) && queues == old(queues) && sprites == old(sprites)
      ensures fighters == old(fighters) && fightMode == old(fightMode)
      ensures countdownHandle == old(countdownHandle) && pendingCountdowns == old(pendingCountdowns)
    {
      if !fightMode {
        return;
      }
      var winnerId := CheckFightWinCondition();
      if winnerId.Some? && winnerId.value != "" {
        outbox := outbox + [Emission(Everyone, EndFight(winnerId.value))];
        // the ten-second restart is scheduled
        pendingRestarts := pendingRestarts + 1;
      }
    }

    /** A weapon overlaps a player. It is ignored when the player threw it, is not
        a fighter or has no health left; otherwise only that player's health
        drops by the decrement, one hurt or dead event is broadcast, and the win
        condition is checked. The weapon is disabled only on a non-lethal hit. */
    method HandleThrowableWeaponPlayerOverlap(thrownBy: PlayerId, struck: PlayerId, touching: Touching)
      returns (weaponDisabled: bool)
      requires Valid() && struck in states
      modifies this
      ensures Valid()
      ensures struck == thrownBy || struck !in old(fighters) || old(states)[struck].health <= 0 ==>
                unchanged(this) && !weaponDisabled
      ensures !(struck == thrownBy || struck !in old(fighters) || old(states)[struck].health <= 0) ==>
                var h := old(states)[struck].health - damage;
                var hit := if h == 0 then PlayerDead(struck)
                           else PlayerHurt(struck, h, damage, HurtOrientation(touching));
                && states == old(states)[struck := old(states)[struck].(health := h)]
                && outbox == old(outbox) + [Emission(Everyone, hit)] + WinEmissions(fightMode, fighters, states)
                && pendingRestarts == old(pendingRestarts) + |WinEmissions(fightMode, fighters, states)|
                && weaponDisabled == (h != 0)
      ensures queues == old(queues) && sprites == old(sprites)
      ensures fighters == old(fighters) && fightMode == old(fightMode)
      ensures countdownHandle == old(countdownHandle) && pendingCountdowns == old(pendingCountdowns)
    {
      weaponDisabled := false;
      if struck == thrownBy {
        return;
      }
      if struck !in fighters {
        return;
      }
      if states[struck].health <= 0 {
        return;
      }
      var h := states[struck].health - damage;
      states := states[struck := states[struck].(health := h)];
      if h == 0 {
        outbox := outbox + [Emission(Everyone, PlayerDead(struck))];
      } else {
        weaponDisabled := true;
        var orientation := HurtOrientation(touching);
        outbox := outbox + [Emission(Everyone, PlayerHurt(struck, h, damage, orientation))];
      }
      HandleWinCondition();
    }

    /** Registers a player: its state with an all-false movement input, an empty
        input queue, and its body in the group. */
    method AddPlayerFromInitialState(init: PlayerInitialState)
      requires Valid() && init.playerId !in states
      modifies this
      ensures Valid()
      ensures states == old(states)[init.playerId := PlayerState(init.x, init.y, init.orientation,
                init.health, init.votingZone, init.settings, NoInput())]
      ensures queues == old(queues)[init.playerId := []]
      ensures sprites == old(sprites)[init.playerId := Sprite(init.x, init.y, init.orientation, None)]
      ensures fighters == old(fighters) && fightMode == old(fightMode) && outbox == old(outbox)
      ensures countdownHandle == old(countdownHandle) && pendingCountdowns == old(pendingCountdowns)
      ensures pendingRestarts == old(pendingRestarts)
    {
      var id := init.playerId;
      states := states[id := PlayerState(init.x, init.y, init.orientation, init.health,
                                         init.votingZone, init.settings, NoInput())];
      queues := queues[id := []];
      sprites := sprites[id := Sprite(init.x, init.y, init.orientation, None)];
    }

    /** Drops a player from the fighters, the group, the states and the queues,
        then re-checks the win condition. */
    method RemovePlayer(id: PlayerId)
      requires Valid()
      modifies this
      ensures Valid()
      ensures states == old(states) - {id} && queues == old(queues) - {id}
      ensures sprites == old(sprites) - {id}
      ensures fighters == old(fighters) - {id} && fightMode == old(fightMode)
      ensures outbox == old(outbox) + WinEmissions(fightMode, fighters, states)
      ensures pendingRestarts == old(pendingRestarts) + |WinEmissions(fightMode, fighters, states)|
      ensures countdownHandle == old(countdownHandle) && pendingCountdowns == old(pendingCountdowns)
    {
      fighters := fighters - {id};
      states := states - {id};
      queues := queues - {id};
      sprites := sprites - {id};
      HandleWinCondition();
    }

    /** A movement input from a registered player becomes its `movementInput`
        and joins the back of its queue; one from an unknown id is dropped. */
    method HandlePlayerMovementInput(id: PlayerId, input: MovementInput)
      requires Valid()
      modifies this
      ensures Valid()
      ensures id in old(states) ==>
                && states == old(states)[id := old(states)[id].(movementInput := input)]
                && queues == old(queues)[id := old(queues)[id] + [input]]
      ensures id !in old(states) ==> states == old(states) && queues == old(queues)
      ensures sprites == old(sprites) && fighters == old(fighters)
      ensures fightMode == old(fightMode) && outbox == old(outbox)
      ensures countdownHandle == old(countdownHandle) && pendingCountdowns == old(pendingCountdowns)
      ensures pendingRestarts == old(pendingRestarts)
    {
      if id in states {
        states := states[id := states[id].(movementInput := input)];
        queues := queues[id := queues[id] + [input]];
      }
    }

    /** The first half of a tick: every queue gives up its oldest input, if it has
        one, and that input is handed to the player's body. */
    method HandlePlayerMovementInputUpdate()
      requires Valid()
      modifies this
      ensures Valid()
      ensures queues == map id | id in old(queues) :: Dequeued(old(queues)[id])
      ensures sprites == map id | id in old(sprites) :: Fed(old(sprites)[id], old(queues)[id])
      ensures states == old(states) && fighters == old(fighters)
      ensures fightMode == old(fightMode) && outbox == old(outbox)
      ensures countdownHandle == old(countdownHandle) && pendingCountdowns == old(pendingCountdowns)
      ensures pendingRestarts == old(pendingRestarts)
    {
      var qs, sp := DequeueAll(queues, sprites);
      queues, sprites := qs, sp;
    }

    /** The second half of a tick: the stored x, y and orientation of every player
        are set from its body, and the players for which one of them changed are
        broadcast together, only when there is at least one. */
    method HandlePlayerUpdate()
      requires Valid()
      modifies this
      ensures Valid()
      ensures states == SyncAll(old(states), sprites)
      ensures outbox == old(outbox) + StatusBroadcast(DeltaOf(old(states), sprites))
      ensures queues == old(queues) && sprites == old(sprites)
      ensures fighters == old(fighters) && fightMode == old(fightMode)
      ensures countdownHandle == old(countdownHandle) && pendingCountdowns == old(pendingCountdowns)
      ensures pendingRestarts == old(pendingRestarts)
    {
      var st, changed := SyncWithBodies(states, sprites);
      states := st;
      if |changed| > 0 {
        outbox := outbox + [Emission(Everyone, PlayersStatusUpdate(changed))];
      }
    }

    /** One scene update: apply one queued input per player, then broadcast what
        moved. Inputs are applied in arrival order, one per player per tick. */
    method Update()
      requires Valid()
      modifies this
      ensures Valid()
      ensures queues == map id | id in old(queues) :: Dequeued(old(queues)[id])
      ensures sprites == map id | id in old(sprites) :: Fed(old(sprites)[id], old(queues)[id])
      ensures states == SyncAll(old(states), sprites)
      ensures outbox == old(outbox) + StatusBroadcast(DeltaOf(old(states), sprites))
      ensures fighters == old(fighters) && fightMode == old(fightMode)
      ensures countdownHandle == old(countdownHandle) && pendingCountdowns == old(pendingCountdowns)
      ensures pendingRestarts == old(pendingRestarts)
    {
      HandlePlayerMovementInputUpdate();
      HandlePlayerUpdate();
    }

    /** Arcade physics moving or turning a player's body between ticks. */
    method PhysicsStep(id: PlayerId, x: int, y: int, orientation: Orientation)
      requires Valid() && id in sprites
      modifies this
      ensures Valid()
      ensures sprites == old(sprites)[id := old(sprites)[id].(x := x, y := y, orientation := orientation)]
      ensures states == old(states) && queues == old(queues)
      ensures outbox == old(outbox) && fighters == old(fighters) && fightMode == old(fightMode)
      ensures countdownHandle == old(countdownHandle) && pendingCountdowns == old(pendingCountdowns)
      ensures pendingRestarts == old(pendingRestarts)
    {
      sprites := sprites[id := sprites[id].(x := x, y := y, orientation := orientation)];
    }

    /** Every body of the group is moved to the spawn point drawn for it. */
    method ResetPlayersPosition(spawns: map<PlayerId, Position>)
      requires Valid() && sprites.Keys <= spawns.Keys
      modifies this
      ensures Valid()
      ensures sprites == map id | id in old(sprites) :: Respawned(old(sprites)[id], spawns[id])
      ensures states == old(states) && queues == old(queues)
      ensures fighters == old(fighters) && fightMode == old(fightMode) && outbox == old(outbox)
      ensures countdownHandle == old(countdownHandle) && pendingCountdowns == old(pendingCountdowns)
      ensures pendingRestarts == old(pendingRestarts)
    {
      var sp := sprites;
      var rest := sprites.Keys;
      ghost var done: set<PlayerId> := {};
      while rest != {}
        invariant rest + done == sprites.Keys && rest !! done
        invariant sp == map id | id in sprites :: if id in done then Respawned(sprites[id], spawns[id]) else sprites[id]
        modifies {}
        decreases rest
      {
        var id :| id in rest;
        var spawn := spawns[id];
        sp := sp[id := sp[id].(x := spawn.x, y := spawn.y)];
        rest := rest - {id};
        done := done + {id};
      }
      sprites := sp;
    }

    /** Every player of the group gets full health back. */
    method ResetPlayersHealth()
      requires Valid()
      modifies this
      ensures Valid()
      ensures states == map id | id in old(states) :: old(states)[id].(health := fullHealth)
      ensures queues == old(queues) && sprites == old(sprites)
      ensures fighters == old(fighters) && fightMode == old(fightMode) && outbox == old(outbox)
      ensures countdownHandle == old(countdownHandle) && pendingCountdowns == old(pendingCountdowns)
      ensures pendingRestarts == old(pendingRestarts)
    {
      var st := states;
      var rest := sprites.Keys;
      ghost var done: set<PlayerId> := {};
      while rest != {}
        invariant rest + done == states.Keys && rest !! done
        invariant st == map id | id in states :: if id in done then states[id].(health := fullHealth) else states[id]
        modifies {}
        decreases rest
      {
        var id :| id in rest;
        st := st[id := st[id].(health := fullHealth)];
        rest := rest - {id};
        done := done + {id};
      }
      states := st;
    }

    /** Sends everyone back to a spawn point with full health and leaves fight
        mode; the fighter set is left as it is. */
    method RestartGame(spawns: map<PlayerId, Position>)
      requires Valid() && sprites.Keys <= spawns.Keys
      modifies this
      ensures Valid()
      ensures states == map id | id in old(states) :: old(states)[id].(health := fullHealth)
      ensures sprites == map id | id in old(sprites) :: Respawned(old(sprites)[id], spawns[id])
      ensures !fightMode && fighters == old(fighters)
      ensures queues == old(queues) && outbox == old(outbox)
      ensures countdownHandle == old(countdownHandle) && pendingCountdowns == old(pendingCountdowns)
      ensures pendingRestarts == old(pendingRestarts)
    {
      ResetPlayersPosition(spawns);
      ResetPlayersHealth();
      fightMode := false;
    }

    /** The `RestartGame` request of a client: restart and tell everyone. */
    method HandleRestartRequest(spawns: map<PlayerId, Position>)
      requires Valid() && sprites.Keys <= spawns.Keys
      modifies this
      ensures Valid()
      ensures states == map id | id in old(states) :: old(states)[id].(health := fullHealth)
      ensures sprites == map id | id in old(sprites) :: Respawned(old(sprites)[id], spawns[id])
      ensures !fightMode && fighters == old(fighters) && queues == old(queues)
      ensures outbox == old(outbox) + [Emission(Everyone, RestartGameEvent)]
      ensures countdownHandle == old(countdownHandle) && pendingCountdowns == old(pendingCountdowns)
      ensures pendingRestarts == old(pendingRestarts)
    {
      RestartGame(spawns);
      outbox := outbox + [Emission(Everyone, RestartGameEvent)];
    }

    /** The ten-second timer armed by an `EndFight` fires: restart and tell everyone. */
    method RestartTimerFires(spawns: map<PlayerId, Position>)
      requires Valid() && sprites.Keys <= spawns.Keys && pendingRestarts > 0
      modifies this
      ensures Valid()
      ensures states == map id | id in old(states) :: old(states)[id].(health := fullHealth)
      ensures sprites == map id | id in old(sprites) :: Respawned(old(sprites)[id], spawns[id])
      ensures !fightMode && fighters == old(fighters) && queues == old(queues)
      ensures outbox == old(outbox) + [Emission(Everyone, RestartGameEvent)]
      ensures countdownHandle == old(countdownHandle) && pendingCountdowns == old(pendingCountdowns)
      ensures pendingRestarts == old(pendingRestarts) - 1
    {
      RestartGame(spawns);
      outbox := outbox + [Emission(Everyone, RestartGameEvent)];
      pendingRestarts := pendingRestarts - 1;
    }

    /** A player volunteers. The first volunteer while not in fight mode sets
        fight mode, opens the waiting room and arms the countdown; once every
        player of the group is a fighter, the scene drops its handle on the
        countdown, whose callback still runs. */
    method HandleJoinFight(id: PlayerId)
      requires Valid() && id in states
      modifies this
      ensures Valid()
      ensures fighters == old(fighters) + {id} && fightMode
      ensures !old(fightMode) ==>
                && outbox == old(outbox) + [Emission(Everyone, StartFightWaitingRoom)]
                && countdownHandle && pendingCountdowns == old(pendingCountdowns) + 1
      ensures old(fightMode) ==>
                && outbox == old(outbox) && pendingCountdowns == old(pendingCountdowns)
                && countdownHandle == (old(countdownHandle) && fighters != states.Keys)
      ensures states == old(states) && queues == old(queues)
      ensures sprites == old(sprites) && pendingRestarts == old(pendingRestarts)
    {
      fighters := fighters + {id};
      if !fightMode {
        fightMode := true;
        outbox := outbox + [Emission(Everyone, StartFightWaitingRoom)];
        countdownHandle := true;
        pendingCountdowns := pendingCountdowns + 1;
      } else if |fighters| == |sprites| {
        assert sprites.Keys == states.Keys;
        AllFighters(fighters, states.Keys);
        countdownHandle := false;
      } else {
        assert sprites.Keys == states.Keys;
      }
    }

    /** The waiting-room countdown fires: with two or more fighters the bodies go
        to the arena and the fight starts; otherwise they go back to the main
        island, a restart is broadcast and fight mode ends. */
    method CountdownFires(spawns: map<PlayerId, Position>)
      requires Valid() && sprites.Keys <= spawns.Keys && pendingCountdowns > 0
      modifies this
      ensures Valid()
      ensures |fighters| >= 2 ==>
                outbox == old(outbox) + [Emission(Everyone, StartFight(fighters))] && fightMode == old(fightMode)
      ensures |fighters| < 2 ==>
                outbox == old(outbox) + [Emission(Everyone, RestartGameEvent)] && !fightMode
      ensures sprites == map id | id in old(sprites) :: Respawned(old(sprites)[id], spawns[id])
      ensures pendingCountdowns == old(pendingCountdowns) - 1
      ensures states == old(states) && queues == old(queues)
      ensures fighters == old(fighters) && countdownHandle == old(countdownHandle)
      ensures pendingRestarts == old(pendingRestarts)
    {
      pendingCountdowns := pendingCountdowns - 1;
      if |fighters| >= 2 {
        ResetPlayersPosition(spawns);
        outbox := outbox + [Emission(Everyone, StartFight(fighters))];
      } else {
        ResetPlayersPosition(spawns);
        outbox := outbox + [Emission(Everyone, RestartGameEvent)];
        fightMode := false;
      }
    }

    /** A socket goes away: the player is removed, everyone is told, and when the
        group is left empty the game restarts. */
    method HandleDisconnect(id: PlayerId)
      requires Valid()
      modifies this
      ensures Valid()
      ensures states == old(states) - {id} && queues == old(queues) - {id}
      ensures sprites == old(sprites) - {id} && fighters == old(fighters) - {id}
      ensures fightMode == (old(fightMode) && states != map[])
      ensures outbox == old(outbox) + WinEmissions(old(fightMode), old(fighters) - {id}, old(states) - {id})
                         + [Emission(Everyone, PlayersLeft(id))]
      ensures pendingRestarts == old(pendingRestarts)
                                 + |WinEmissions(old(fightMode), old(fighters) - {id}, old(states) - {id})|
      ensures countdownHandle == old(countdownHandle) && pendingCountdowns == old(pendingCountdowns)
    {
      RemovePlayer(id);
      outbox := outbox + [Emission(Everyone, PlayersLeft(id))];
      if |sprites| == 0 {
        RestartGame(map[]);
      }
    }

    /** A socket connects. Without usable settings the peer gets an error (always
        worded "Missing playerSettings") and is disconnected; a query that parses
        to a falsy value stops the handler silently; otherwise the player joins at
        the spawn point with full health facing down, receives every player's
        initial state (and the fighters when a fight is on), and the others
        learn about it. */
    method HandleConnect(id: PlayerId, handshake: Handshake, spawn: Position)
      requires Valid() && id !in states
      modifies this
      ensures Valid()
      ensures handshake.ParsedFalsy? ==> unchanged(this)
      ensures handshake.Missing? || handshake.Invalid? ==>
                && states == old(states) && queues == old(queues) && sprites == old(sprites)
                && fighters == old(fighters) && fightMode == (old(fightMode) && old(states) != map[])
                && outbox == old(outbox) + [Emission(Peer(id), ServerError("Missing playerSettings"))]
                   + WinEmissions(old(fightMode), old(fighters), old(states))
                   + [Emission(Everyone, PlayersLeft(id))]
                && pendingRestarts == old(pendingRestarts) + |WinEmissions(old(fightMode), old(fighters), old(states))|
      ensures handshake.Parsed? ==>
                var st := PlayerState(spawn.x, spawn.y, Down, fullHealth, None, handshake.settings, NoInput());
                && states == old(states)[id := st]
                && queues == old(queues)[id := []]
                && sprites == old(sprites)[id := Sprite(spawn.x, spawn.y, Down, None)]
                && fighters == old(fighters) && fightMode == old(fightMode)
                && outbox == old(outbox)
                   + [Emission(Peer(id), PlayersInitialStatusInfo(map p | p in states :: InitialViewOf(states[p])))]
                   + (if fightMode then [Emission(Peer(id), StartFight(fighters))] else [])
                   + [Emission(AllBut(id), PlayersNew(InitialViewOf(st)))]
                && pendingRestarts == old(pendingRestarts)
      ensures countdownHandle == old(countdownHandle) && pendingCountdowns == old(pendingCountdowns)
    {
      match handshake {
        case Missing | Invalid =>
          outbox := outbox + [Emission(Peer(id), ServerError("Missing playerSettings"))];
          HandleDisconnect(id);
        case ParsedFalsy =>
        case Parsed(settings) =>
          WelcomePlayer(id, settings, spawn);
      }
    }

    /** A player with settings joins at the spawn point with full health, facing
        down; it gets the initial view of everyone (itself included) and, during
        a fight, the fighters; the others learn of the newcomer. */
    method WelcomePlayer(id: PlayerId, settings: PlayerSettings, spawn: Position)
      requires Valid() && id !in states
      modifies this
      ensures Valid()
      ensures var st := PlayerState(spawn.x, spawn.y, Down, fullHealth, None, settings, NoInput());
              && states == old(states)[id := st]
              && queues == old(queues)[id := []]
              && sprites == old(sprites)[id := Sprite(spawn.x, spawn.y, Down, None)]
              && fighters == old(fighters) && fightMode == old(fightMode)
              && outbox == old(outbox)
                 + [Emission(Peer(id), PlayersInitialStatusInfo(map p | p in states :: InitialViewOf(states[p])))]
                 + (if fightMode then [Emission(Peer(id), StartFight(fighters))] else [])
                 + [Emission(AllBut(id), PlayersNew(InitialViewOf(st)))]
      ensures countdownHandle == old(countdownHandle) && pendingCountdowns == old(pendingCountdowns)
      ensures pendingRestarts == old(pendingRestarts)
    {
      var init := PlayerInitialState(id, spawn.x, spawn.y, None, settings, fullHealth, Down);
      AddPlayerFromInitialState(init);
      var initialStates := map p | p in states :: InitialViewOf(states[p]);
      outbox := outbox + [Emission(Peer(id), PlayersInitialStatusInfo(initialStates))];
      if fightMode {
        outbox := outbox + [Emission(Peer(id), StartFight(fighters))];
      }
      outbox := outbox + [Emission(AllBut(id), PlayersNew(initialStates[id]))];
    }

    /** A fight action of a registered player is relayed to the others with the
        position and orientation of its body. */
    method HandleFightAction(id: PlayerId)
      requires Valid()
      modifies this
      ensures Valid()
      ensures id !in old(sprites) ==> unchanged(this)
      ensures id in old(sprites) ==>
                var p := old(sprites)[id];
                && outbox == old(outbox) + [Emission(AllBut(id), PlayerFightAction(id, p.x, p.y, p.orientation))]
                && states == old(states) && sprites == old(sprites) && fighters == old(fighters)
                && queues == old(queues) && fightMode == old(fightMode)
                && countdownHandle == old(countdownHandle) && pendingCountdowns == old(pendingCountdowns)
                && pendingRestarts == old(pendingRestarts)
    {
      if id !in sprites {
        return;
      }
      var p := sprites[id];
      outbox := outbox + [Emission(AllBut(id), PlayerFightAction(id, p.x, p.y, p.orientation))];
    }

    /** New settings are relayed to the others unchanged; the server keeps the old ones. */
    method HandleSettingsUpdate(id: PlayerId, settings: PlayerSettings)
      requires Valid()
      modifies this
      ensures Valid()
      ensures outbox == old(outbox) + [Emission(AllBut(id), PlayerSettingsUpdate(settings))]
      ensures states == old(states) && sprites == old(sprites) && fighters == old(fighters)
      ensures queues == old(queues) && fightMode == old(fightMode)
      ensures countdownHandle == old(countdownHandle) && pendingCountdowns == old(pendingCountdowns)
      ensures pendingRestarts == old(pendingRestarts)
    {
      outbox := outbox + [Emission(AllBut(id), PlayerSettingsUpdate(settings))];
    }

    /** A player asks to go back to the main island: its body moves to the spawn point. */
    method HandleRestartPosition(id: PlayerId, spawn: Position)
      requires Valid()
      modifies this
      ensures Valid()
      ensures id in old(sprites) ==> sprites == old(sprites)[id := Respawned(old(sprites)[id], spawn)]
      ensures id !in old(sprites) ==> sprites == old(sprites)
      ensures states == old(states) && outbox == old(outbox) && fighters == old(fighters)
      ensures queues == old(queues) && fightMode == old(fightMode)
      ensures countdownHandle == old(countdownHandle) && pendingCountdowns == old(pendingCountdowns)
      ensures pendingRestarts == old(pendingRestarts)
    {
      if id in sprites {
        sprites := sprites[id := sprites[id].(x := spawn.x, y := spawn.y)];
      }
    }

    /** An admin kicks a player out: its socket, when found, is told, and the
        player is removed. */
    method HandleKickout(target: PlayerId, socketFound: bool)
      requires Valid()
      modifies this
      ensures Valid()
      ensures states == old(states) - {target} && queues == old(queues) - {target}
      ensures sprites == old(sprites) - {target} && fighters == old(fighters) - {target}
      ensures fightMode == old(fightMode)
      ensures outbox == old(outbox) + (if socketFound then [Emission(Peer(target), PlayerKickout)] else [])
                         + WinEmissions(fightMode, fighters, states)
      ensures pendingRestarts == old(pendingRestarts) + |WinEmissions(fightMode, fighters, states)|
      ensures countdownHandle == old(countdownHandle) && pendingCountdowns == old(pendingCountdowns)
    {
      if socketFound {
        outbox := outbox + [Emission(Peer(target), PlayerKickout)];
      }
      RemovePlayer(target);
    }
  }
}
