/** Players and the checks made on them before a game starts. */
module Players {
  import opened Optional

  /** A player: the name written into the board's cells ("p1" to "p4") and a colour. */
  datatype Player = Player(name: string, color: string)

  /** The gate on the number of players typed in: `[2, 3, 4].includes(count)`. */
  function ValidPlayerCount(count: int): (ok: bool)
    ensures ok <==> 2 <= count <= 4
  {
    count in [2, 3, 4]
  }

  /** The name `p${k}` of the k-th player, for a one-digit k. */
  function PlayerName(k: nat): (name: string)
    requires 1 <= k <= 9
    ensures |name| == 2 && name[0] == 'p' && '1' <= name[1] <= '9'
  {
    "p" + [('0' as int + k) as char]
  }

  /** The names "p1" to "pn" are pairwise distinct. */
  lemma NamesDistinct(n: nat)
    requires n <= 9
    ensures forall j, k :: 1 <= j < k <= n ==> PlayerName(j) != PlayerName(k)
  {
    forall j, k | 1 <= j < k <= n ensures PlayerName(j) != PlayerName(k) {
      assert PlayerName(j)[1] != PlayerName(k)[1];
    }
  }

  /** Two of the first `k` players share a colour. */
  ghost predicate DuplicateColorBefore(ps: seq<Player>, k: nat)
    requires k <= |ps|
  {
    exists i, j :: 0 <= i < j < k && ps[i].color == ps[j].color
  }

  ghost predicate HasDuplicateColors(ps: seq<Player>)
  {
    DuplicateColorBefore(ps, |ps|)
  }

  /** `checkForDuplicateColors`: collects the colours in a set and compares its
      size with the number of players. */
  method CheckForDuplicateColors(playerArr: seq<Player>) returns (dup: bool)
    ensures dup <==> exists i, j :: 0 <= i < j < |playerArr| && playerArr[i].color == playerArr[j].color
  {
    var checkColors: set<string> := {};
    for x := 0 to |playerArr|
      invariant checkColors == set i | 0 <= i < x :: playerArr[i].color
      invariant |checkColors| <= x
      invariant |checkColors| == x <==> !DuplicateColorBefore(playerArr, x)
    {
      var c := playerArr[x].color;
      if c in checkColors {
        var i :| 0 <= i < x && playerArr[i].color == c;
        assert playerArr[i].color == playerArr[x].color;
      } else {
        assert !DuplicateColorBefore(playerArr, x + 1) <==> !DuplicateColorBefore(playerArr, x);
      }
      checkColors := checkColors + {c};
    }
    dup := |checkColors| != |playerArr|;
  }

  /** The players built from the colours typed in, named "p1", "p2", ... in order. */
  function MakePlayers(colors: seq<string>): (ps: seq<Player>)
    requires |colors| <= 9
    ensures |ps| == |colors|
    ensures forall i :: 0 <= i < |ps| ==> ps[i].color == colors[i] && ps[i].name != ""
    ensures forall i, j :: 0 <= i < j < |ps| ==> ps[i].name != ps[j].name
  {
    NamesDistinct(|colors|);
    seq(|colors|, i requires 0 <= i < |colors| => Player(PlayerName(i + 1), colors[i]))
  }

  /** `setUpPlayers` without the colour-name validation: builds the player list
      and rejects it when two players picked the same colour. */
  method SetUpPlayers(colors: seq<string>) returns (players: Option<seq<Player>>)
    requires ValidPlayerCount(|colors|)
    ensures players.Some? <==> !HasDuplicateColors(MakePlayers(colors))
    ensures players.Some? ==> players.value == MakePlayers(colors)
  {
    var playerArr: seq<Player> := [];
    for x := 1 to |colors| + 1
      invariant playerArr == MakePlayers(colors[..x - 1])
    {
      playerArr := playerArr + [Player(PlayerName(x), colors[x - 1])];
    }
    assert colors[..|colors|] == colors;
    var dup := CheckForDuplicateColors(playerArr);
    if !dup {
      players := Some(playerArr);
    } else {
      players := None;
    }
  }
}
