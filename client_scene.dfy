/** The client game scene of the multiplayer RPG: turning held cursor keys into
    the movement input sent to the server (only when it changes), the hard stop,
    the voting-zone highlight, hiding players on the voting islands, the
    reconnect reset, and the fight events, which are ignored outside fight mode.

    What the scene sends to the server is appended to `sent`; what it asks of the
    player characters (update, fight, hurt, kill) is appended to `calls`. A
    revive is not logged: it shows only as the player no longer being dead. A call
    on the current player before its character exists (before the first
    initial-states message) is a TypeError in the source; the model makes no
    call then.
    The reactive rule "when the player can no longer move, hard-stop it" is run
    explicitly where the flag is cleared. */
module ClientScene {
  import opened PlayerTypes
  import opened ClientFightState

  type PlayerId = string

  /** What the scene sends over its socket. */
  datatype ClientEvent = PlayersInput(input: MovementInput) | PlayerFightAction

  /** What the scene asks of a player character. */
  datatype CharacterCall =
    | UpdateWith(who: PlayerId, input: MovementInput)
    | Fight(who: PlayerId)
    | Hurt(who: PlayerId, damage: int, orientation: Orientation)
    | Kill(who: PlayerId)

  /** The parts of a rendered player the scene reads or changes. */
  datatype ClientPlayer = ClientPlayer(y: int, visible: bool, isDead: bool)

  /** A thrown weapon as the client overlap handler sees it. */
  datatype Weapon = Weapon(thrownBy: PlayerId, bodyEnabled: bool, visible: bool)

  /** One axis of the key-to-input rule: exactly one key of the pair down sets
      its flag and keeps the other one; neither or both clear both. */
  function AxisInput(firstDown: bool, secondDown: bool, first: bool, second: bool): (r: (bool, bool))
    ensures firstDown && !secondDown ==> r.0 && r.1 == second
    ensures secondDown && !firstDown ==> r.1 && r.0 == first
    ensures firstDown == secondDown ==> !r.0 && !r.1
  {
    if firstDown && !secondDown then (true, second)
    else if secondDown && !firstDown then (first, true)
    else (false, false)
  }

  /** The new input computed from the previous one and the keys held down. */
  function NextMovementInput(previous: MovementInput, keys: CursorKeys): (m: MovementInput)
    ensures (m.left, m.right) == AxisInput(keys.left, keys.right, previous.left, previous.right)
    ensures (m.up, m.down) == AxisInput(keys.up, keys.down, previous.up, previous.down)
  {
    var (left, right) := AxisInput(keys.left, keys.right, previous.left, previous.right);
    var (up, down) := AxisInput(keys.up, keys.down, previous.up, previous.down);
    MovementInput(left, right, up, down)
  }

  /** Holding the same keys again gives the same input, so a held key produces a
      single network message. */
  lemma NextMovementInputIdempotent(previous: MovementInput, keys: CursorKeys)
    ensures NextMovementInput(NextMovementInput(previous, keys), keys) == NextMovementInput(previous, keys)
  {
    var once := NextMovementInput(previous, keys);
    var twice := NextMovementInput(once, keys);
    assert (twice.left, twice.right) == (once.left, once.right);
    assert (twice.up, twice.down) == (once.up, once.down);
  }

  /** With no key held the input is all false, whatever it was. */
  lemma NoKeysStops(previous: MovementInput)
    ensures NextMovementInput(previous, CursorKeys(false, false, false, false)) == NoInput()
  {
    var m := NextMovementInput(previous, CursorKeys(false, false, false, false));
    assert (m.left, m.right) == (false, false);
    assert (m.up, m.down) == (false, false);
  }

  /** The kept flag is not cleared: releasing right while pressing left gives an
      input with both left and right set. */
  lemma BothHorizontalFlags()
    ensures NextMovementInput(MovementInput(false, true, false, false), CursorKeys(true, false, false, false))
            == MovementInput(true, true, false, false)
  {
    var m := NextMovementInput(MovementInput(false, true, false, false), CursorKeys(true, false, false, false));
    assert (m.left, m.right) == (true, true);
    assert (m.up, m.down) == (false, false);
  }

  /** JavaScript truthiness of a frontier: unset and 0 are falsy. */
  predicate FrontierSet(frontierY: Option<int>)
  {
    frontierY.Some? && frontierY.value != 0
  }

  /** The visibility rule for a player while voting: `None` leaves the player as
      it is (the current player, or no frontier); otherwise it is hidden exactly
      when players are hidden while voting and it stands above the frontier. */
  function VisibilityWhileVoting(isCurrentPlayer: bool, frontierY: Option<int>,
                                 hidePlayersWhileVoting: bool, y: int): (visible: Option<bool>)
    ensures visible.None? <==> isCurrentPlayer || !FrontierSet(frontierY)
    ensures visible.Some? ==> (!visible.value <==> hidePlayersWhileVoting && y < frontierY.value)
  {
    if !isCurrentPlayer && FrontierSet(frontierY) then
      var playerIsVoting := y < frontierY.value;
      Some(!(hidePlayersWhileVoting && playerIsVoting))
    else None
  }

  /** The client overlap handler as its comments intend it: a weapon passes
      through its thrower and dead players, and is switched off and hidden by
      anyone else. */
  function WeaponAfterOverlap(w: Weapon, struckId: PlayerId, struckIsDead: bool): (r: Weapon)
    ensures r.thrownBy == w.thrownBy
    ensures struckId == w.thrownBy || struckIsDead ==> r == w
    ensures struckId != w.thrownBy && !struckIsDead ==> !r.bodyEnabled && !r.visible
  {
    if struckId == w.thrownBy then w
    else if struckIsDead then w
    else w.(bodyEnabled := false, visible := false)
  }

  /** The physics state of a sprite the overlap handler can switch off. */
  datatype Body = Body(bodyEnabled: bool, visible: bool)

  /** What an overlap does to the struck player as the handler is written.
      Phaser hands it the weapon first and the struck player second, but the
      handler takes the first for the player and the second for the weapon: it
      compares the weapon's `id` with the struck player's `thrownBy`, reads
      `isDead` off the weapon, and then switches off and hides the struck
      player. A field the object lacks reads as `undefined`, here `None`. */
  function StruckPlayerAsWritten(weaponId: Option<PlayerId>, weaponIsDead: bool,
                                 struckThrownBy: Option<PlayerId>, struck: Body): (r: Body)
    ensures weaponId == struckThrownBy || weaponIsDead ==> r == struck
    ensures weaponId != struckThrownBy && !weaponIsDead ==> !r.bodyEnabled && !r.visible
  {
    if weaponId == struckThrownBy then struck
    else if weaponIsDead then struck
    else Body(false, false)
  }

  /** As written, when neither object has the field read off it, the handler
      compares `undefined` with `undefined` and does nothing: an arrow thrown by
      "a" that strikes the living player "b" flies on and "b" is untouched,
      where the intended handler switches the arrow off and hides it. */
  lemma OverlapAsWrittenIgnoresHit(struck: Body)
    ensures StruckPlayerAsWritten(None, false, None, struck) == struck
    ensures WeaponAfterOverlap(Weapon("a", true, true), "b", false) == Weapon("a", false, false)
  {
  }

  /** JavaScript truthiness of a voting-zone value: unset and "" are falsy. */
  predicate Truthy(v: Option<string>)
  {
    v.Some? && v.value != ""
  }

  /** Sets the fill alpha (in percent) of the zone with that value, if there is one. */
  function Fill(zones: map<string, int>, value: string, alpha: int): map<string, int>
  {
    if value in zones then zones[value := alpha] else zones
  }

  /** What a changed input sends: the input itself, once. */
  function InputSent(last: MovementInput, m: MovementInput): seq<ClientEvent>
  {
    if m != last then [PlayersInput(m)] else []
  }

  /** What a changed input asks of the current player's character, when it
      exists. */
  function InputApplied(who: PlayerId, present: bool, last: MovementInput, m: MovementInput): seq<CharacterCall>
  {
    if m != last && present then [UpdateWith(who, m)] else []
  }

  class ClientGame {
    const currentPlayerId: PlayerId
    /** The full health `restorePlayersHealth` gives every player. */
    const fullHealth: int
    /** The fight flags of the global game state. */
    const fight: GameFightState

    var lastMovementInput: MovementInput
    var playerCanMove: bool
    var disconnectedFromServer: bool
    var currentVotingZoneValue: Option<string>
    /** The fill alpha, in percent, of each voting zone rectangle by its value. */
    var zoneAlpha: map<string, int>
    /** The y of the voting frontier, read from the map when the scene is created. */
    const votingFrontierY: Option<int>
    /** Whether players standing on the voting islands are hidden. */
    const hidePlayersWhileVoting: bool
    var players: map<PlayerId, ClientPlayer>
    /** The health of each player as the global game state records it. */
    var healths: map<PlayerId, int>
    var sent: seq<ClientEvent>
    var calls: seq<CharacterCall>

    /** A highlighted zone always has a truthy value. */
    ghost predicate Valid()
      reads this
    {
      currentVotingZoneValue.Some? ==> currentVotingZoneValue.value != ""
    }

    constructor (currentPlayerId: PlayerId, fight: GameFightState, zoneAlpha: map<string, int>, fullHealth: int,
                 votingFrontierY: Option<int>, hidePlayersWhileVoting: bool)
      ensures Valid()
      ensures this.currentPlayerId == currentPlayerId && this.fight == fight && this.fullHealth == fullHealth
      ensures this.votingFrontierY == votingFrontierY && this.hidePlayersWhileVoting == hidePlayersWhileVoting
      ensures lastMovementInput == NoInput() && playerCanMove && !disconnectedFromServer
      ensures currentVotingZoneValue == None && this.zoneAlpha == zoneAlpha
      ensures players == map[] && healths == map[] && sent == [] && calls == []
    {
      this.currentPlayerId := currentPlayerId;
      this.fight := fight;
      this.fullHealth := fullHealth;
      lastMovementInput := NoInput();
      playerCanMove := true;
      disconnectedFromServer := false;
      currentVotingZoneValue := None;
      this.zoneAlpha := zoneAlpha;
      this.votingFrontierY := votingFrontierY;
      this.hidePlayersWhileVoting := hidePlayersWhileVoting;
      players := map[];
      healths := map[];
      sent := [];
      calls := [];
    }

    /** Stores, sends and applies an input only when some flag differs from the
        stored one; the same input twice in a row is sent once. */
    method UpdateLastMovementInput(movementInput: MovementInput)
      modifies this
      ensures movementInput != old(lastMovementInput) ==>
                && lastMovementInput == movementInput
                && sent == old(sent) + [PlayersInput(movementInput)]
                && calls == old(calls) +
                   (if currentPlayerId in players then [UpdateWith(currentPlayerId, movementInput)] else [])
      ensures movementInput == old(lastMovementInput) ==>
                lastMovementInput == old(lastMovementInput) && sent == old(sent) && calls == old(calls)
      ensures playerCanMove == old(playerCanMove) && players == old(players)
      ensures currentVotingZoneValue == old(currentVotingZoneValue) && zoneAlpha == old(zoneAlpha)
      ensures disconnectedFromServer == old(disconnectedFromServer) && healths == old(healths)
    {
      var last := lastMovementInput;
      if last.left != movementInput.left || last.right != movementInput.right
         || last.up != movementInput.up || last.down != movementInput.down
      {
        lastMovementInput := movementInput;
        sent := sent + [PlayersInput(lastMovementInput)];
        if currentPlayerId in players {
          calls := calls + [UpdateWith(currentPlayerId, lastMovementInput)];
        }
      }
    }

    /** One frame of keyboard handling: nothing while the player cannot move;
        otherwise the input derived from the keys and the stored input. */
    method HandleMovementInput(keys: CursorKeys)
      modifies this
      ensures !old(playerCanMove) ==> unchanged(this)
      ensures old(playerCanMove) ==>
                var m := NextMovementInput(old(lastMovementInput), keys);
                && lastMovementInput == m
                && sent == old(sent) + InputSent(old(lastMovementInput), m)
                && calls == old(calls) + InputApplied(currentPlayerId, currentPlayerId in players, old(lastMovementInput), m)
      ensures playerCanMove == old(playerCanMove) && players == old(players)
      ensures currentVotingZoneValue == old(currentVotingZoneValue) && zoneAlpha == old(zoneAlpha)
      ensures disconnectedFromServer == old(disconnectedFromServer) && healths == old(healths)
    {
      if !playerCanMove {
        return;
      }
      var newMovementInput := NextMovementInput(lastMovementInput, keys);
      UpdateLastMovementInput(newMovementInput);
    }

    /** Stops the player: the stored input becomes all false, and that is sent
        unless it already was. */
    method HardStopCurrentPlayerMovement()
      modifies this
      ensures lastMovementInput == NoInput()
      ensures sent == old(sent) + InputSent(old(lastMovementInput), NoInput())
      ensures calls == old(calls) + InputApplied(currentPlayerId, currentPlayerId in players, old(lastMovementInput), NoInput())
      ensures playerCanMove == old(playerCanMove) && players == old(players)
      ensures currentVotingZoneValue == old(currentVotingZoneValue) && zoneAlpha == old(zoneAlpha)
      ensures disconnectedFromServer == old(disconnectedFromServer) && healths == old(healths)
    {
      UpdateLastMovementInput(NoInput());
    }

    /** Sets `playerCanMove`; clearing it hard-stops the player. */
    method SetPlayerCanMove(canMove: bool)
      modifies this
      ensures playerCanMove == canMove
      ensures !canMove ==> lastMovementInput == NoInput()
      ensures !canMove ==> sent == old(sent) + InputSent(old(lastMovementInput), NoInput())
      ensures !canMove ==>
                calls == old(calls) + InputApplied(currentPlayerId, currentPlayerId in players, old(lastMovementInput), NoInput())
      ensures canMove ==> lastMovementInput == old(lastMovementInput) && sent == old(sent) && calls == old(calls)
      ensures players == old(players) && healths == old(healths)
      ensures currentVotingZoneValue == old(currentVotingZoneValue) && zoneAlpha == old(zoneAlpha)
      ensures disconnectedFromServer == old(disconnectedFromServer)
    {
      playerCanMove := canMove;
      if !canMove {
        HardStopCurrentPlayerMovement();
      }
    }

    /** The highlight moves only from no zone to a zone (a truthy value) or from a
        zone to no zone; a different zone while one is highlighted, or a falsy
        value while none is, changes nothing. */
    method UpdateVotingZoneRender(newVotingZoneValue: Option<string>)
      requires Valid()
      modifies this
      ensures Valid()
      ensures old(currentVotingZoneValue).None? && Truthy(newVotingZoneValue) ==>
                currentVotingZoneValue == newVotingZoneValue
                && zoneAlpha == Fill(old(zoneAlpha), newVotingZoneValue.value, 80)
      ensures old(currentVotingZoneValue).Some? && newVotingZoneValue.None? ==>
                currentVotingZoneValue.None?
                && zoneAlpha == Fill(old(zoneAlpha), old(currentVotingZoneValue).value, 50)
      ensures (old(currentVotingZoneValue).None? && !Truthy(newVotingZoneValue))
              || (old(currentVotingZoneValue).Some? && newVotingZoneValue.Some?) ==>
                unchanged(this)
      ensures lastMovementInput == old(lastMovementInput) && sent == old(sent) && players == old(players)
      ensures calls == old(calls) && healths == old(healths)
      ensures playerCanMove == old(playerCanMove) && disconnectedFromServer == old(disconnectedFromServer)
    {
      if currentVotingZoneValue.None? {
        if Truthy(newVotingZoneValue) {
          currentVotingZoneValue := newVotingZoneValue;
          zoneAlpha := Fill(zoneAlpha, newVotingZoneValue.value, 80);
        }
      } else {
        if newVotingZoneValue.None? {
          var value := currentVotingZoneValue.value;
          currentVotingZoneValue := None;
          zoneAlpha := Fill(zoneAlpha, value, 50);
        }
      }
    }

    /** Applies the visibility rule to one rendered player. */
    method HandlePlayerVisibilityWhileVoting(id: PlayerId)
      requires id in players
      modifies this
      ensures var v := VisibilityWhileVoting(id == currentPlayerId, votingFrontierY,
                                             hidePlayersWhileVoting, old(players)[id].y);
              players == if v.Some? then old(players)[id := old(players)[id].(visible := v.value)]
                         else old(players)
      ensures id == currentPlayerId ==> players == old(players)
      ensures lastMovementInput == old(lastMovementInput) && sent == old(sent) && calls == old(calls)
      ensures healths == old(healths) && playerCanMove == old(playerCanMove)
      ensures disconnectedFromServer == old(disconnectedFromServer)
      ensures currentVotingZoneValue == old(currentVotingZoneValue) && zoneAlpha == old(zoneAlpha)
    {
      var v := VisibilityWhileVoting(id == currentPlayerId, votingFrontierY, hidePlayersWhileVoting, players[id].y);
      if v.Some? {
        players := players[id := players[id].(visible := v.value)];
      }
    }

    /** A player's character joins the scene: it is recorded alive and visible
        where the server placed it, then the visibility rule hides it when it
        is another player standing on the voting islands while those are
        hidden. */
    method AddPlayer(id: PlayerId, y: int)
      modifies this
      ensures id in players && players[id].y == y && !players[id].isDead
      ensures players[id].visible <==>
                !(id != currentPlayerId && FrontierSet(votingFrontierY) && hidePlayersWhileVoting && y < votingFrontierY.value)
      ensures players == old(players)[id := players[id]]
      ensures lastMovementInput == old(lastMovementInput) && sent == old(sent) && calls == old(calls)
      ensures healths == old(healths) && playerCanMove == old(playerCanMove)
      ensures disconnectedFromServer == old(disconnectedFromServer)
      ensures currentVotingZoneValue == old(currentVotingZoneValue) && zoneAlpha == old(zoneAlpha)
    {
      players := players[id := ClientPlayer(y, true, false)];
      HandlePlayerVisibilityWhileVoting(id);
    }

    /** The server went offline. */
    method HandleServerOffline()
      modifies this
      ensures disconnectedFromServer
      ensures players == old(players) && sent == old(sent) && lastMovementInput == old(lastMovementInput)
      ensures calls == old(calls) && healths == old(healths) && playerCanMove == old(playerCanMove)
      ensures currentVotingZoneValue == old(currentVotingZoneValue) && zoneAlpha == old(zoneAlpha)
    {
      disconnectedFromServer := true;
    }

    /** On the initial-states message: after a disconnection the rendered players
        are destroyed and the flag is reset; otherwise nothing happens. */
    method HandleServerReconnect()
      modifies this
      ensures old(disconnectedFromServer) ==> !disconnectedFromServer && players == map[]
      ensures !old(disconnectedFromServer) ==> unchanged(this)
      ensures sent == old(sent) && calls == old(calls) && lastMovementInput == old(lastMovementInput)
      ensures healths == old(healths) && playerCanMove == old(playerCanMove)
      ensures currentVotingZoneValue == old(currentVotingZoneValue) && zoneAlpha == old(zoneAlpha)
    {
      var isServerReconnect := disconnectedFromServer;
      if isServerReconnect {
        disconnectedFromServer := false;
        players := map[];
      }
    }

    /** The space key just went down: in fight mode, and unless the current
        player is dead, a fight action is sent and the player fights. */
    method HandleFightInput(spaceJustDown: bool)
      modifies this
      ensures var acts := fight.fightMode && spaceJustDown &&
                          !(currentPlayerId in old(players) && old(players)[currentPlayerId].isDead);
              && sent == old(sent) + (if acts then [PlayerFightAction] else [])
              && calls == old(calls) + (if acts && currentPlayerId in players then [Fight(currentPlayerId)] else [])
      ensures !fight.fightMode ==> unchanged(this)
      ensures players == old(players) && lastMovementInput == old(lastMovementInput)
      ensures healths == old(healths) && playerCanMove == old(playerCanMove)
      ensures disconnectedFromServer == old(disconnectedFromServer)
      ensures currentVotingZoneValue == old(currentVotingZoneValue) && zoneAlpha == old(zoneAlpha)
    {
      if !fight.fightMode {
        return;
      }
      if currentPlayerId in players && players[currentPlayerId].isDead {
        return;
      }
      if spaceJustDown {
        sent := sent + [PlayerFightAction];
        if currentPlayerId in players {
          calls := calls + [Fight(currentPlayerId)];
        }
      }
    }

    /** Another player's fight action: only in fight mode and for a known player. */
    method HandlePlayerFightAction(id: PlayerId)
      modifies this
      ensures calls == old(calls) + (if fight.fightMode && id in players then [Fight(id)] else [])
      ensures !(fight.fightMode && id in players) ==> unchanged(this)
      ensures players == old(players) && healths == old(healths) && sent == old(sent)
      ensures playerCanMove == old(playerCanMove) && lastMovementInput == old(lastMovementInput)
      ensures disconnectedFromServer == old(disconnectedFromServer)
      ensures currentVotingZoneValue == old(currentVotingZoneValue) && zoneAlpha == old(zoneAlpha)
    {
      if !fight.fightMode {
        return;
      }
      if id !in players {
        return;
      }
      calls := calls + [Fight(id)];
    }

    /** A hurt event: only in fight mode and for a known player, whose recorded
        health becomes the one the server sent. */
    method HandlePlayerHurt(id: PlayerId, health: int, damage: int, orientation: Orientation)
      modifies this
      ensures fight.fightMode && id in players ==>
                healths == old(healths)[id := health]
                && calls == old(calls) + [Hurt(id, damage, orientation)]
      ensures !(fight.fightMode && id in players) ==> unchanged(this)
      ensures players == old(players) && sent == old(sent) && playerCanMove == old(playerCanMove)
      ensures lastMovementInput == old(lastMovementInput) && disconnectedFromServer == old(disconnectedFromServer)
      ensures currentVotingZoneValue == old(currentVotingZoneValue) && zoneAlpha == old(zoneAlpha)
    {
      if !fight.fightMode {
        return;
      }
      if id !in players {
        return;
      }
      healths := healths[id := health];
      calls := calls + [Hurt(id, damage, orientation)];
    }

    /** A dead event: only in fight mode and for a known player, whose recorded
        health becomes 0 and who is killed; when it is the current player it can
        no longer move and is hard-stopped. */
    method HandlePlayerDead(id: PlayerId)
      modifies this
      ensures !(fight.fightMode && id in old(players)) ==> unchanged(this)
      ensures fight.fightMode && id in old(players) ==>
                && healths == old(healths)[id := 0]
                && players == old(players)[id := old(players)[id].(isDead := true)]
                && calls == old(calls) + [Kill(id)] +
                   (if id == currentPlayerId then InputApplied(id, true, old(lastMovementInput), NoInput()) else [])
                && (id == currentPlayerId ==>
                      && !playerCanMove && lastMovementInput == NoInput()
                      && sent == old(sent) + InputSent(old(lastMovementInput), NoInput()))
                && (id != currentPlayerId ==>
                      playerCanMove == old(playerCanMove) && sent == old(sent)
                      && lastMovementInput == old(lastMovementInput))
      ensures disconnectedFromServer == old(disconnectedFromServer)
      ensures currentVotingZoneValue == old(currentVotingZoneValue) && zoneAlpha == old(zoneAlpha)
    {
      if !fight.fightMode {
        return;
      }
      if id !in players {
        return;
      }
      healths := healths[id := 0];
      players := players[id := players[id].(isDead := true)];
      calls := calls + [Kill(id)];
      if id == currentPlayerId {
        SetPlayerCanMove(false);
      }
    }

    /** The waiting room opens. */
    method HandleStartFightWaitingRoom()
      modifies fight
      ensures fight.onWaitingRoom
      ensures fight.fightMode == old(fight.fightMode) && fight.playerWantsToFight == old(fight.playerWantsToFight)
    {
      fight.SetOnWaitingRoom(true);
    }

    /** The fight starts, which closes the waiting room. */
    method HandleStartFight()
      modifies fight
      ensures fight.fightMode && !fight.onWaitingRoom
      ensures fight.playerWantsToFight == old(fight.playerWantsToFight)
    {
      fight.SetFightMode(true);
    }

    /** A restart: the fight flags are cleared, every player is back to full
        health and revived (no longer dead), and the current player can move
        again. */
    method HandleRestartGame()
      modifies this, fight
      ensures !fight.fightMode && !fight.playerWantsToFight && !fight.onWaitingRoom
      ensures healths == map id | id in old(healths) :: fullHealth
      ensures players == map id | id in old(players) :: old(players)[id].(isDead := false)
      ensures playerCanMove
      ensures lastMovementInput == old(lastMovementInput) && sent == old(sent) && calls == old(calls)
      ensures disconnectedFromServer == old(disconnectedFromServer)
      ensures currentVotingZoneValue == old(currentVotingZoneValue) && zoneAlpha == old(zoneAlpha)
    {
      fight.Clear();
      RestorePlayersHealth();
    }

    /** Every recorded health goes back to full, every player is revived, and
        the current player can move again. */
    method RestorePlayersHealth()
      modifies this
      ensures healths == map id | id in old(healths) :: fullHealth
      ensures players == map id | id in old(players) :: old(players)[id].(isDead := false)
      ensures playerCanMove
      ensures lastMovementInput == old(lastMovementInput) && sent == old(sent) && calls == old(calls)
      ensures currentVotingZoneValue == old(currentVotingZoneValue) && zoneAlpha == old(zoneAlpha)
      ensures disconnectedFromServer == old(disconnectedFromServer)
    {
      healths := map id | id in healths :: fullHealth;
      players := map id | id in players :: players[id].(isDead := false);
      playerCanMove := true;
    }
  }
}
