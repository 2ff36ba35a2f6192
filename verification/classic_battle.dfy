/**
 * The stand-alone rock/scissors/paper page: moves are the Chinese words for
 * scissors, rock and cloth, the enemy plays a random choice, and a counter
 * records how many rounds the player has won.
 */
module ClassicBattle {

  /** The three strings `getResult` returns. */
  datatype Result = Win | Lose | Draw

  const Scissors: string := "剪刀"
  const Rock: string := "石頭"
  const Cloth: string := "布"

  /** `choices`, in the order the enemy's random index selects from. */
  const Choices: seq<string> := [Scissors, Rock, Cloth]

  /**
   * Reference relation: each choice beats the one listed before it in
   * `Choices`, cyclically (rock beats scissors, cloth beats rock, scissors
   * beats cloth).
   */
  predicate Beats(player: string, enemy: string)
  {
    exists i :: 0 <= i < |Choices| && BeatsAt(i, player, enemy)
  }

  /** The player holds position `i` of `Choices` and the enemy the position before it, cyclically. */
  predicate BeatsAt(i: int, player: string, enemy: string)
  {
    0 <= i < |Choices| && player == Choices[i] && enemy == Choices[(i + 2) % 3]
  }

  /** The cycle of `Choices`, pair by pair. */
  lemma BeatsPairs(player: string, enemy: string)
    ensures Beats(player, enemy) <==>
              || (player == Scissors && enemy == Cloth)
              || (player == Rock && enemy == Scissors)
              || (player == Cloth && enemy == Rock)
  {
    if player == Scissors && enemy == Cloth {
      assert BeatsAt(0, player, enemy);
    }
    if player == Rock && enemy == Scissors {
      assert BeatsAt(1, player, enemy);
    }
    if player == Cloth && enemy == Rock {
      assert BeatsAt(2, player, enemy);
    }
    if Beats(player, enemy) {
      var i :| 0 <= i < |Choices| && BeatsAt(i, player, enemy);
      if i == 0 {
        assert enemy == Choices[2];
      } else if i == 1 {
        assert enemy == Choices[0];
      } else {
        assert enemy == Choices[1];
      }
    }
  }

  /** `getResult`: equal strings draw, the three winning pairs win, everything else loses. */
  function GetResult(player: string, enemy: string): (r: Result)
    ensures player == enemy ==> r == Draw
    ensures r == Draw ==> player == enemy
    ensures r == Win <==> Beats(player, enemy)
  {
    BeatsPairs(player, enemy);
    if player == enemy then Draw
    else if
      || (player == "剪刀" && enemy == "布")
      || (player == "石頭" && enemy == "剪刀")
      || (player == "布" && enemy == "石頭")
    then Win
    else Lose
  }

  /**
   * For two different moves from `choices`, one order wins and the other
   * loses. (Two different strings outside `choices` lose in both orders.)
   */
  lemma GetResultAntisymmetric(a: string, b: string)
    requires a in Choices && b in Choices && a != b
    ensures GetResult(a, b) == Win <==> GetResult(b, a) == Lose
    ensures GetResult(a, b) != Draw && GetResult(b, a) != Draw
  {
    assert Scissors != Rock && Rock != Cloth && Cloth != Scissors;
  }

  /** `choices[Math.floor(Math.random() * choices.length)]`, with the draw as an index. */
  function EnemyChoice(pick: nat): (enemy: string)
    requires pick < |Choices|
    ensures enemy in Choices
  {
    Choices[pick]
  }

  /** The module-level `winCount` of the page. */
  class ScoreBoard {
    var winCount: nat

    constructor ()
      ensures winCount == 0
    {
      winCount := 0;
    }

    /**
     * One click on a move button: the enemy plays `choices[pick]`, and a win
     * raises the counter by one while a draw or a loss leaves it alone.
     */
    method Click(player: string, pick: nat) returns (enemy: string, result: Result)
      requires pick < |Choices|
      modifies this
      ensures enemy in Choices && result == GetResult(player, enemy)
      ensures enemy == Choices[pick]
      ensures winCount == old(winCount) + (if result == Win then 1 else 0)
      ensures winCount >= old(winCount)
    {
      enemy := EnemyChoice(pick);
      result := GetResult(player, enemy);
      if result == Win {
        winCount := winCount + 1;
      }
    }
  }
}
