/** The client's player factory: a static set of the avatars already handed out,
    an allocator that hands out the first avatar of a fixed list of nine that is
    not in the set yet (falling back to "nicolas-debin" once all nine are
    used), and the dispatch that builds a player character from an avatar
    name. */
module PlayerFactory {
  import opened PlayerTypes

  type PlayerId = string

  const NicolasDebin: string := "nicolas-debin"

  /** The avatars the allocator walks through, in order. */
  const Avatars: seq<string> := [
    "adrian-tomkins", "calvin-koepke", "joel-bowen", "john-geiger", "lakshmi-vegesna",
    "michael-kantor", "nick-taylor", NicolasDebin, "ryan-mckay"
  ]

  /** The character `fromPlayerState` builds. */
  datatype Character =
    | GenericLpcCharacter(avatar: string, playerId: PlayerId, x: int, y: int)
    | FaunaCharacter(playerId: PlayerId, x: int, y: int)
    | LizardCharacter(playerId: PlayerId, x: int, y: int)

  predicate DistinctKeys(s: seq<string>)
  {
    forall i, j :: 0 <= i < j < |s| ==> s[i] != s[j]
  }

  lemma AvatarsDistinct()
    ensures |Avatars| == 9 && DistinctKeys(Avatars)
  {
  }

  /** The first index at or after `i` whose avatar is not in `used`, or the
      length of the list when there is none. */
  function FirstUnusedFrom(used: set<string>, i: nat): (r: nat)
    requires i <= |Avatars|
    ensures i <= r <= |Avatars|
    ensures r < |Avatars| ==> Avatars[r] !in used
    ensures forall k :: i <= k < r ==> Avatars[k] in used
    decreases |Avatars| - i
  {
    if i == |Avatars| then i
    else if Avatars[i] !in used then i
    else FirstUnusedFrom(used, i + 1)
  }

  /** What one call of the allocator returns, and the set after it. The key is
      always in the new set, and the set only grows. */
  function Allocate(used: set<string>): (r: (string, set<string>))
    ensures r.0 in r.1 && used <= r.1 && r.0 in Avatars
    ensures (exists k :: 0 <= k < |Avatars| && Avatars[k] !in used) ==>
              r.0 !in used && r.1 == used + {r.0}
    ensures (forall k :: 0 <= k < |Avatars| ==> Avatars[k] in used) ==>
              r == (NicolasDebin, used)
  {
    var i := FirstUnusedFrom(used, 0);
    if i < |Avatars| then (Avatars[i], used + {Avatars[i]})
    else
      assert Avatars[7] in used;
      (NicolasDebin, used)
  }

  /** The keys of `n` successive calls starting from the set `used`, and the set
      after them. */
  function Allocations(used: set<string>, n: nat): (seq<string>, set<string>)
    decreases n
  {
    if n == 0 then ([], used)
    else
      var step := Allocate(used);
      var rest := Allocations(step.1, n - 1);
      ([step.0] + rest.0, rest.1)
  }

  function Handed(j: nat): set<string>
    requires j <= |Avatars|
  {
    set k | 0 <= k < j :: Avatars[k]
  }

  /** After the first `j` avatars are handed out, the next call hands out the
      avatar at index `j`. */
  lemma AllocateNext(j: nat)
    requires j < |Avatars|
    ensures Allocate(Handed(j)) == (Avatars[j], Handed(j + 1))
  {
    AvatarsDistinct();
    assert Avatars[j] !in Handed(j);
    assert forall k :: 0 <= k < j ==> Avatars[k] in Handed(j);
    assert Handed(j + 1) == Handed(j) + {Avatars[j]};
  }

  lemma {:induction false} AllocationsFrom(j: nat)
    requires j <= |Avatars|
    ensures Allocations(Handed(j), |Avatars| - j) == (Avatars[j..], Handed(|Avatars|))
    decreases |Avatars| - j
  {
    if j < |Avatars| {
      var n := |Avatars| - j;
      var tail := Avatars[j + 1..];
      assert Allocations(Handed(j), n) == ([Avatars[j]] + tail, Handed(|Avatars|)) by {
        AllocateNext(j);
        AllocationsFrom(j + 1);
      }
      assert [Avatars[j]] + tail == Avatars[j..];
    } else {
      assert Avatars[j..] == [];
    }
  }

  /** Starting from an empty set, the first nine calls hand out the nine avatars
      in list order, so they are pairwise distinct. */
  lemma FirstNineDistinct()
    ensures Allocations({}, 9).0 == Avatars
    ensures DistinctKeys(Allocations({}, 9).0)
  {
    assert Handed(0) == {};
    AllocationsFrom(0);
    AvatarsDistinct();
  }

  /** Once every avatar has been handed out, every call returns "nicolas-debin"
      and leaves the set unchanged. */
  lemma {:induction false} ExhaustedAllocations(used: set<string>, n: nat)
    requires forall k :: 0 <= k < |Avatars| ==> Avatars[k] in used
    ensures Allocations(used, n) == (seq(n, _ => NicolasDebin), used)
  {
    if n > 0 {
      ExhaustedAllocations(used, n - 1);
      var step := Allocate(used);
      assert step == (NicolasDebin, used);
      var rest := Allocations(step.1, n - 1);
      assert rest == (seq(n - 1, _ => NicolasDebin), used);
      assert Allocations(used, n) == ([step.0] + rest.0, rest.1);
      assert seq(n, _ => NicolasDebin) == [NicolasDebin] + seq(n - 1, _ => NicolasDebin);
    } else {
      assert seq(n, _ => NicolasDebin) == [];
    }
  }

  class AvatarAllocator {
    /** The static set of avatars already handed out. */
    var players: set<string>

    constructor ()
      ensures players == {}
    {
      players := {};
    }

    /** Walks the list and hands out the first avatar not in the set, adding it;
        with every avatar used, returns "nicolas-debin" and adds nothing. */
    method GetRandomAvatarKey() returns (key: string)
      modifies this
      ensures (key, players) == Allocate(old(players))
    {
      for i := 0 to |Avatars|
        invariant players == old(players)
        invariant forall k :: 0 <= k < i ==> Avatars[k] in players
      {
        if Avatars[i] !in players {
          assert FirstUnusedFrom(players, 0) == i;
          players := players + {Avatars[i]};
          return Avatars[i];
        }
      }
      key := NicolasDebin;
    }

    /** Builds the character for an avatar name: "generic-lpc" gets a freshly
        allocated avatar; "fauna" and "lizard" are looked up in the class map;
        any other name finds no class, and constructing it fails (`None`)
        without touching the set. */
    method FromPlayerState(name: string, playerId: PlayerId, x: int, y: int) returns (c: Option<Character>)
      modifies this
      ensures name == "generic-lpc" ==>
                var (key, next) := Allocate(old(players));
                c == Some(GenericLpcCharacter(key, playerId, x, y)) && players == next
      ensures name == "fauna" ==> c == Some(FaunaCharacter(playerId, x, y)) && players == old(players)
      ensures name == "lizard" ==> c == Some(LizardCharacter(playerId, x, y)) && players == old(players)
      ensures name !in {"generic-lpc", "fauna", "lizard"} ==> c.None? && players == old(players)
    {
      if name == "generic-lpc" {
        var avatar := GetRandomAvatarKey();
        return Some(GenericLpcCharacter(avatar, playerId, x, y));
      }
      if name == "fauna" {
        c := Some(FaunaCharacter(playerId, x, y));
      } else if name == "lizard" {
        c := Some(LizardCharacter(playerId, x, y));
      } else {
        c := None;
      }
    }
  }
}
