/** The client's fight flags: whether the local player asked to fight, whether a
    fight is on, and whether the waiting room is showing. The `fightMode` setter
    is coupled to the waiting room: turning a fight on closes the waiting room. */
module ClientFightState {

  class GameFightState {
    var playerWantsToFight: bool
    var fightMode: bool
    var onWaitingRoom: bool

    /** Every flag starts false. */
    constructor ()
      ensures !playerWantsToFight && !fightMode && !onWaitingRoom
    {
      playerWantsToFight := false;
      fightMode := false;
      onWaitingRoom := false;
    }

    /** Changes only `playerWantsToFight`. */
    method SetPlayerWantsToFight(newValue: bool)
      modifies this
      ensures playerWantsToFight == newValue
      ensures fightMode == old(fightMode) && onWaitingRoom == old(onWaitingRoom)
    {
      playerWantsToFight := newValue;
    }

    /** Turning the fight on also closes the waiting room; turning it off leaves
        the other two flags as they were. */
    method SetFightMode(newValue: bool)
      modifies this
      ensures fightMode == newValue
      ensures newValue ==> !onWaitingRoom
      ensures !newValue ==> onWaitingRoom == old(onWaitingRoom)
      ensures playerWantsToFight == old(playerWantsToFight)
    {
      fightMode := newValue;
      if newValue {
        SetOnWaitingRoom(false);
      }
    }

    /** Changes only `onWaitingRoom`. */
    method SetOnWaitingRoom(newValue: bool)
      modifies this
      ensures onWaitingRoom == newValue
      ensures fightMode == old(fightMode) && playerWantsToFight == old(playerWantsToFight)
    {
      onWaitingRoom := newValue;
    }

    /** Leaves all three flags false whatever they were, so a second call
        changes nothing. */
    method Clear()
      modifies this
      ensures !playerWantsToFight && !fightMode && !onWaitingRoom
    {
      SetFightMode(false);
      SetPlayerWantsToFight(false);
      SetOnWaitingRoom(false);
    }
  }
}
