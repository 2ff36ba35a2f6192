/**
 * The battle round and stage progression of the Little Hero game: a hero
 * plays rock/scissors/paper against the monster of one of nine stages laid
 * out on a 3x3 map, lowers the monster's mood to clear the stage, and
 * completes "bingo" lines of cleared stages.
 *
 * The pure rules (outcome table, stage table, move pool, hero talent, bingo
 * lines) are functions; the game component's state cells and the handlers
 * that update them are the class LittleHeroGame.
 */
module HeroGame {
  import opened Wrappers

  datatype Move = Rock | Scissors | Paper

  datatype Outcome = Win | Lose | Draw

  /** The two terminal values of `isBattleOver`: 'win' and 'lose'. */
  datatype Verdict = Won | Lost

  datatype View = MapView | BattleView

  datatype HeroId = Warrior | Mage | Priest | Villager

  /** A hero's talent: one move, or 'any' for the villager. */
  datatype Talent = Gifted(move: Move) | AnyMove

  /** A monster's talent and forbidden move (names and flavour text are left out). */
  datatype MonsterConfig = MonsterConfig(talent: Move, forbidden: Option<Move>)

  /** The stages are the nine cells of the map. */
  type StageId = i: int | 1 <= i <= 9 witness 1

  /** One battle-log line: what both sides played, the outcome and whether the hero's talent fired. */
  datatype LogEntry = LogEntry(player: Move, monster: Move, outcome: Outcome, talentBonus: bool)

  const MaxMood: int := 3
  const MaxHp: int := 3

  // ---------------------------------------------------------------------
  // Outcome of a round

  /** Position of a move in the MOVES table: rock, scissors, paper. */
  function MoveIndex(m: Move): nat
  {
    match m
    case Rock => 0
    case Scissors => 1
    case Paper => 2
  }

  /** Reference relation: a move beats the one listed after it in MOVES, cyclically. */
  predicate Beats(a: Move, b: Move)
  {
    (MoveIndex(b) - MoveIndex(a)) % 3 == 1
  }

  /** The outcome chain of handleBattleMove, from the hero's point of view. */
  function Resolve(player: Move, monster: Move): (r: Outcome)
    ensures r == Draw <==> player == monster
    ensures r == Win <==> Beats(player, monster)
    ensures r == Lose <==> Beats(monster, player)
  {
    if (player == Rock && monster == Scissors)
       || (player == Scissors && monster == Paper)
       || (player == Paper && monster == Rock)
    then Win
    else if player != monster then Lose
    else Draw
  }

  /** For distinct moves, exactly one side wins. */
  lemma ResolveAntisymmetric(a: Move, b: Move)
    requires a != b
    ensures Resolve(a, b) == Win <==> Resolve(b, a) == Lose
    ensures Resolve(a, b) != Draw && Resolve(b, a) != Draw
  {
  }

  // ---------------------------------------------------------------------
  // Stages and the monster's move pool

  /** The STAGES table, reduced to each monster's talent and forbidden move. */
  function StageConfig(id: StageId): (c: MonsterConfig)
    ensures c.forbidden.Some? && c.talent != c.forbidden.value
  {
    match id
    case 1 => MonsterConfig(Rock, Some(Paper))
    case 2 => MonsterConfig(Rock, Some(Paper))
    case 3 => MonsterConfig(Rock, Some(Paper))
    case 4 => MonsterConfig(Paper, Some(Scissors))
    case 5 => MonsterConfig(Rock, Some(Paper))
    case 6 => MonsterConfig(Rock, Some(Paper))
    case 7 => MonsterConfig(Rock, Some(Paper))
    case 8 => MonsterConfig(Rock, Some(Scissors))
    case _ => MonsterConfig(Scissors, Some(Rock))
  }

  /** `m === forbidden`, for a forbidden move that may be null. */
  predicate IsForbidden(forbidden: Option<Move>, m: Move)
  {
    forbidden == Some(m)
  }

  /**
   * `['rock', 'paper', 'scissors'].filter(m => m !== forbidden)`, the filter
   * written out over its three-element list.
   */
  function AllowedMoves(forbidden: Option<Move>): (allowed: seq<Move>)
    ensures forall i :: 0 <= i < |allowed| ==> !IsForbidden(forbidden, allowed[i])
  {
    (if !IsForbidden(forbidden, Rock) then [Rock] else [])
    + (if !IsForbidden(forbidden, Paper) then [Paper] else [])
    + (if !IsForbidden(forbidden, Scissors) then [Scissors] else [])
  }

  /** With a forbidden move two moves remain, otherwise all three. */
  lemma AllowedMovesLength(forbidden: Option<Move>)
    ensures |AllowedMoves(forbidden)| == if forbidden.Some? then 2 else 3
  {
    match forbidden {
      case None => assert AllowedMoves(forbidden) == [Rock, Paper, Scissors];
      case Some(Rock) => assert AllowedMoves(forbidden) == [Paper, Scissors];
      case Some(Paper) => assert AllowedMoves(forbidden) == [Rock, Scissors];
      case Some(Scissors) => assert AllowedMoves(forbidden) == [Rock, Paper];
    }
  }

  /** Each move is allowed exactly once unless it is the forbidden one. */
  lemma AllowedMovesCount(forbidden: Option<Move>)
    ensures forall m :: multiset(AllowedMoves(forbidden))[m] == if IsForbidden(forbidden, m) then 0 else 1
  {
    var rock := if !IsForbidden(forbidden, Rock) then [Rock] else [];
    var paper := if !IsForbidden(forbidden, Paper) then [Paper] else [];
    var scissors := if !IsForbidden(forbidden, Scissors) then [Scissors] else [];
    assert multiset(AllowedMoves(forbidden)) == multiset(rock) + multiset(paper) + multiset(scissors);
    forall m ensures multiset(AllowedMoves(forbidden))[m] == if IsForbidden(forbidden, m) then 0 else 1 {
      match m {
        case Rock => assert multiset(paper)[m] == 0 && multiset(scissors)[m] == 0;
        case Paper => assert multiset(rock)[m] == 0 && multiset(scissors)[m] == 0;
        case Scissors => assert multiset(rock)[m] == 0 && multiset(paper)[m] == 0;
      }
    }
  }

  /**
   * The monster's move pool: the allowed moves followed by one extra copy of
   * the talent.
   */
  function MovePool(c: MonsterConfig): (pool: seq<Move>)
    ensures |pool| == if c.forbidden.Some? then 3 else 4
  {
    AllowedMovesLength(c.forbidden);
    AllowedMoves(c.forbidden) + [c.talent]
  }

  /**
   * The pool holds exactly the moves that are not forbidden, plus the talent;
   * a talent that is not forbidden is in it twice, every other allowed move once.
   */
  lemma MovePoolContents(c: MonsterConfig)
    ensures forall m :: m in MovePool(c) <==> !IsForbidden(c.forbidden, m) || m == c.talent
    ensures !IsForbidden(c.forbidden, c.talent) ==>
              multiset(MovePool(c))[c.talent] == 2
              && forall m :: m != c.talent && !IsForbidden(c.forbidden, m) ==> multiset(MovePool(c))[m] == 1
  {
    var allowed := AllowedMoves(c.forbidden);
    var pool := MovePool(c);
    AllowedMovesCount(c.forbidden);
    assert multiset(pool) == multiset(allowed) + multiset{c.talent};
    assert forall m :: m in pool <==> multiset(pool)[m] > 0;
  }

  /** Whatever index the random draw yields, a stage's monster never plays its forbidden move. */
  lemma MonsterNeverPlaysForbidden(id: StageId, pick: nat)
    requires pick < |MovePool(StageConfig(id))|
    ensures Some(MovePool(StageConfig(id))[pick]) != StageConfig(id).forbidden
  {
  }

  // ---------------------------------------------------------------------
  // The hero

  /** `t` occurs in `s` starting at index `i`. */
  predicate OccursAt(s: string, t: string, i: nat)
  {
    i + |t| <= |s| && s[i..i + |t|] == t
  }

  /** Past a non-matching first position, `t` occurs in `s` iff it occurs in `s` without its first character. */
  lemma OccursInTail(s: string, t: string)
    requires |s| >= |t| && !OccursAt(s, t, 0)
    ensures (exists i: nat :: OccursAt(s, t, i)) <==> (exists i: nat :: OccursAt(s[1..], t, i))
  {
    if i: nat :| OccursAt(s, t, i) {
      assert i >= 1;
      assert s[1..][i - 1..i - 1 + |t|] == s[i..i + |t|];
      assert OccursAt(s[1..], t, i - 1);
    }
    if i: nat :| OccursAt(s[1..], t, i) {
      assert s[1..][i..i + |t|] == s[i + 1..i + 1 + |t|];
      assert OccursAt(s, t, i + 1);
    }
  }

  /** JavaScript's `s.includes(t)`: `t` occurs in `s` as a contiguous substring. */
  function Includes(s: string, t: string): (r: bool)
    ensures r <==> exists i: nat :: OccursAt(s, t, i)
    decreases |s|
  {
    if |s| < |t| then
      assert forall i: nat :: !OccursAt(s, t, i);
      false
    else if s[..|t|] == t then
      assert OccursAt(s, t, 0);
      true
    else
      OccursInTail(s, t);
      Includes(s[1..], t)
  }

  /** `heroId`: the first of warrior, mage and priest whose title the hero's name contains, else villager. */
  function HeroIdOf(selectedHeroName: string): (h: HeroId)
    ensures h == Warrior <==> Includes(selectedHeroName, "戰士")
    ensures h == Mage <==> !Includes(selectedHeroName, "戰士") && Includes(selectedHeroName, "法師")
    ensures h == Priest <==>
              !Includes(selectedHeroName, "戰士") && !Includes(selectedHeroName, "法師")
              && Includes(selectedHeroName, "牧師")
    ensures h == Villager <==>
              !Includes(selectedHeroName, "戰士") && !Includes(selectedHeroName, "法師")
              && !Includes(selectedHeroName, "牧師")
  {
    if Includes(selectedHeroName, "戰士") then Warrior
    else if Includes(selectedHeroName, "法師") then Mage
    else if Includes(selectedHeroName, "牧師") then Priest
    else Villager
  }

  /** The `selectedHeroName` prop's default: the warrior's title. */
  const DefaultHeroName: string := "戰士"

  /** The prop as the component sees it: the given name, or the default when it is omitted. */
  function HeroNameOrDefault(selectedHeroName: Option<string>): string
  {
    if selectedHeroName.Some? then selectedHeroName.value else DefaultHeroName
  }

  /** A component rendered without a name plays the warrior, whose talent is rock. */
  lemma DefaultHeroIsWarrior()
    ensures HeroIdOf(HeroNameOrDefault(None)) == Warrior
    ensures HeroTalent(HeroIdOf(HeroNameOrDefault(None))) == Gifted(Rock)
  {
  }

  /** `getHeroTalent`. */
  function HeroTalent(h: HeroId): (t: Talent)
    ensures t == AnyMove <==> h == Villager
  {
    match h
    case Warrior => Gifted(Rock)
    case Mage => Gifted(Scissors)
    case Priest => Gifted(Paper)
    case Villager => AnyMove
  }

  /** Damage of a winning move: doubled when it is the hero's talent. */
  function Damage(talent: Talent, move: Move): (d: int)
    ensures d == 1 || d == 2
    ensures d == 2 <==> talent == Gifted(move)
  {
    if talent == Gifted(move) then 2 else 1
  }

  /** A hero whose name holds none of the three titles is a villager and never gets the bonus. */
  lemma VillagerNeverDoublesDamage(selectedHeroName: string, move: Move)
    requires !Includes(selectedHeroName, "戰士") && !Includes(selectedHeroName, "法師")
    requires !Includes(selectedHeroName, "牧師")
    ensures Damage(HeroTalent(HeroIdOf(selectedHeroName)), move) == 1
  {
  }

  // ---------------------------------------------------------------------
  // Bingo lines

  /** BINGO_LINES: the three rows, three columns and two diagonals of the map. */
  const BingoLines: seq<seq<StageId>> :=
    [[1, 2, 3], [4, 5, 6], [7, 8, 9],
     [1, 4, 7], [2, 5, 8], [3, 6, 9],
     [1, 5, 9], [3, 5, 7]]

  /** `line.every(cell => cleared.includes(cell))`. */
  predicate LineCleared(line: seq<StageId>, cleared: seq<StageId>)
  {
    forall cell :: cell in line ==> cell in cleared
  }

  /** The indices below `n` of the bingo lines whose cells are all cleared, in increasing order. */
  function LinesUpTo(cleared: seq<StageId>, n: nat): (lines: seq<nat>)
    requires n <= |BingoLines|
    ensures forall k :: k in lines <==> 0 <= k < n && LineCleared(BingoLines[k], cleared)
    ensures forall i, j :: 0 <= i < j < |lines| ==> lines[i] < lines[j]
  {
    if n == 0 then []
    else
      var prev := LinesUpTo(cleared, n - 1);
      assert forall i :: 0 <= i < |prev| ==> prev[i] in prev;
      prev + (if LineCleared(BingoLines[n - 1], cleared) then [n - 1] else [])
  }

  /** The indices of all fully cleared bingo lines. */
  function CompletedLines(cleared: seq<StageId>): (lines: seq<nat>)
    ensures forall k :: k in lines <==> 0 <= k < |BingoLines| && LineCleared(BingoLines[k], cleared)
  {
    LinesUpTo(cleared, |BingoLines|)
  }

  /** The `forEach` over BINGO_LINES in `checkBingo`, collecting the indices of the completed lines. */
  method FindCompletedLines(cleared: seq<StageId>) returns (lines: seq<nat>)
    ensures lines == CompletedLines(cleared)
  {
    lines := [];
    var idx := 0;
    while idx < |BingoLines|
      invariant 0 <= idx <= |BingoLines|
      invariant lines == LinesUpTo(cleared, idx)
    {
      ghost var next := LinesUpTo(cleared, idx + 1);
      assert next == lines + (if LineCleared(BingoLines[idx], cleared) then [idx] else []);
      if LineCleared(BingoLines[idx], cleared) {
        lines := lines + [idx];
      }
      idx := idx + 1;
    }
  }

  /** `lines.filter(x => !recorded.includes(x))`. */
  function Unrecorded(lines: seq<nat>, recorded: seq<nat>): (newly: seq<nat>)
    ensures forall k :: k in newly <==> k in lines && k !in recorded
  {
    if lines == [] then []
    else (if lines[0] in recorded then [] else [lines[0]]) + Unrecorded(lines[1..], recorded)
  }

  /** Clearing one more stage never un-completes a line. */
  lemma LineClearedGrows(line: seq<StageId>, cleared: seq<StageId>, stage: StageId)
    requires LineCleared(line, cleared)
    ensures LineCleared(line, cleared + [stage])
  {
  }

  predicate NoDuplicates(s: seq<StageId>)
  {
    forall i, j :: 0 <= i < j < |s| ==> s[i] != s[j]
  }

  // ---------------------------------------------------------------------
  // The game component's state

  class LittleHeroGame {
    const heroTalent: Talent
    var view: View
    var clearedStages: seq<StageId>
    var selectedStage: Option<StageId>
    /** Whether a love message / a courage message is shown (their wording is left out). */
    var loveMsg: bool
    var courageMsg: bool
    /** Most recent entry first. */
    var battleLog: seq<LogEntry>
    var monsterMood: int
    var heroHp: int
    var isBattleOver: Option<Verdict>
    var completedLines: seq<nat>

    ghost predicate Valid()
      reads this
    {
      && 0 <= monsterMood <= MaxMood
      && 0 <= heroHp <= MaxHp
      && (isBattleOver == None ==> monsterMood > 0 && heroHp > 0)
      && (isBattleOver == Some(Won) ==> monsterMood == 0)
      && (isBattleOver == Some(Lost) ==> heroHp == 0)
      && NoDuplicates(clearedStages)
      && forall k :: k in completedLines ==> 0 <= k < |BingoLines| && LineCleared(BingoLines[k], clearedStages)
    }

    /** The component's initial state for a hero with the given name. */
    constructor (selectedHeroName: Option<string>)
      ensures Valid()
      ensures heroTalent == HeroTalent(HeroIdOf(HeroNameOrDefault(selectedHeroName)))
      ensures selectedHeroName.None? ==> heroTalent == Gifted(Rock)
      ensures view == MapView && clearedStages == [] && selectedStage == None
      ensures !loveMsg && !courageMsg && battleLog == [] && completedLines == []
      ensures monsterMood == MaxMood && heroHp == MaxHp && isBattleOver == None
    {
      DefaultHeroIsWarrior();
      heroTalent := HeroTalent(HeroIdOf(HeroNameOrDefault(selectedHeroName)));
      view := MapView;
      clearedStages := [];
      selectedStage := None;
      loveMsg := false;
      courageMsg := false;
      battleLog := [];
      monsterMood := MaxMood;
      heroHp := MaxHp;
      isBattleOver := None;
      completedLines := [];
    }

    /** `handleStageSelect`: select a stage on the map and hide both messages. */
    method HandleStageSelect(stageId: StageId)
      requires Valid()
      modifies this`selectedStage, this`loveMsg, this`courageMsg
      ensures Valid()
      ensures selectedStage == Some(stageId) && !loveMsg && !courageMsg
    {
      selectedStage := Some(stageId);
      loveMsg := false;
      courageMsg := false;
    }

    /** `startBattle`: with a stage selected, a fresh battle at full mood and health. */
    method StartBattle()
      requires Valid()
      modifies this
      ensures Valid()
      ensures old(selectedStage).None? ==> unchanged(this)
      ensures old(selectedStage).Some? ==>
                && view == BattleView && monsterMood == MaxMood && heroHp == MaxHp
                && battleLog == [] && isBattleOver == None
                && selectedStage == old(selectedStage) && clearedStages == old(clearedStages)
                && completedLines == old(completedLines)
                && loveMsg == old(loveMsg) && courageMsg == old(courageMsg)
    {
      if selectedStage.Some? {
        view := BattleView;
        monsterMood := MaxMood;
        heroHp := MaxHp;
        battleLog := [];
        isBattleOver := None;
      }
    }

    /** The battle screen's back-to-map button: only the view changes. */
    method BackToMap()
      requires Valid()
      modifies this`view
      ensures Valid() && view == MapView
    {
      view := MapView;
    }

    /** A move is accepted only while a stage is selected and the battle is not over. */
    predicate AcceptsMoves()
      reads this
    {
      isBattleOver.None? && selectedStage.Some?
    }

    /** The monster's move for a given draw from the selected stage's pool. */
    function MonsterMove(pick: nat): (m: Move)
      reads this
      requires selectedStage.Some? && pick < |MovePool(StageConfig(selectedStage.value))|
      ensures Some(m) != StageConfig(selectedStage.value).forbidden
    {
      MonsterNeverPlaysForbidden(selectedStage.value, pick);
      MovePool(StageConfig(selectedStage.value))[pick]
    }

    /**
     * `checkBingo`: work out the completed lines for `newCleared`; only when one
     * of them was not recorded yet, record them all and show a courage message.
     */
    method CheckBingo(newCleared: seq<StageId>)
      modifies this`completedLines, this`courageMsg
      ensures var full := CompletedLines(newCleared);
              if |Unrecorded(full, old(completedLines))| > 0
              then completedLines == full && courageMsg
              else completedLines == old(completedLines) && courageMsg == old(courageMsg)
    {
      var newLines := FindCompletedLines(newCleared);
      var newlyCompleted := Unrecorded(newLines, completedLines);
      if |newlyCompleted| > 0 {
        completedLines := newLines;
        courageMsg := true;
      }
    }

    /**
     * The progress part of a won battle: a stage not cleared yet is appended
     * to the cleared list, the love message shows and the bingo lines are
     * checked; a stage cleared before changes nothing.
     */
    method RecordClear(stage: StageId)
      requires Valid()
      modifies this`clearedStages, this`loveMsg, this`completedLines, this`courageMsg
      ensures Valid()
      ensures if stage !in old(clearedStages) then
                && clearedStages == old(clearedStages) + [stage]
                && loveMsg
                && var full := CompletedLines(clearedStages);
                   if |Unrecorded(full, old(completedLines))| > 0
                   then completedLines == full && courageMsg
                   else completedLines == old(completedLines) && courageMsg == old(courageMsg)
              else
                && clearedStages == old(clearedStages)
                && loveMsg == old(loveMsg) && courageMsg == old(courageMsg)
                && completedLines == old(completedLines)
    {
      if stage !in clearedStages {
        var newCleared := clearedStages + [stage];
        forall k | k in completedLines
          ensures LineCleared(BingoLines[k], newCleared)
        {
          LineClearedGrows(BingoLines[k], clearedStages, stage);
        }
        clearedStages := newCleared;
        CheckBingo(newCleared);
        loveMsg := true;
      }
    }

    /**
     * `handleBattleMove`: play one round against the monster's move drawn at
     * index `pick` of the stage's pool, then apply the round's effect.
     */
    method HandleBattleMove(playerMove: Move, pick: nat)
      requires Valid()
      requires selectedStage.Some? ==> pick < |MovePool(StageConfig(selectedStage.value))|
      modifies this
      ensures Valid()
      ensures !old(AcceptsMoves()) ==> unchanged(this)
      ensures old(AcceptsMoves()) ==>
                var monster := old(MonsterMove(pick));
                var outcome := Resolve(playerMove, monster);
                var damage := Damage(heroTalent, playerMove);
                && battleLog == [LogEntry(playerMove, monster, outcome, outcome == Win && damage == 2)] + old(battleLog)
                && monsterMood == (if outcome == Win then Max0(old(monsterMood) - damage) else old(monsterMood))
                && heroHp == (if outcome == Lose then old(heroHp) - 1 else old(heroHp))
                && isBattleOver == (if outcome == Win && monsterMood == 0 then Some(Won)
                                    else if outcome == Lose && heroHp == 0 then Some(Lost)
                                    else None)
                && view == old(view) && selectedStage == old(selectedStage)
      ensures old(AcceptsMoves()) ==>
                var stage := old(selectedStage).value;
                if isBattleOver == Some(Won) && stage !in old(clearedStages) then
                  && clearedStages == old(clearedStages) + [stage]
                  && loveMsg
                  && var full := CompletedLines(clearedStages);
                     if |Unrecorded(full, old(completedLines))| > 0
                     then completedLines == full && courageMsg
                     else completedLines == old(completedLines) && courageMsg == old(courageMsg)
                else
                  && clearedStages == old(clearedStages)
                  && loveMsg == old(loveMsg) && courageMsg == old(courageMsg)
                  && completedLines == old(completedLines)
    {
      if isBattleOver.Some? || selectedStage.None? {
        return;
      }
      var stage := selectedStage.value;
      var movePool := MovePool(StageConfig(stage));
      var monsterMove := movePool[pick];
      var result := Resolve(playerMove, monsterMove);

      if result == Win {
        var damage := Damage(heroTalent, playerMove);
        var newMood := Max0(monsterMood - damage);
        monsterMood := newMood;
        battleLog := [LogEntry(playerMove, monsterMove, Win, damage == 2)] + battleLog;
        if newMood == 0 {
          isBattleOver := Some(Won);
          RecordClear(stage);
        }
      } else if result == Lose {
        heroHp := heroHp - 1;
        battleLog := [LogEntry(playerMove, monsterMove, Lose, false)] + battleLog;
        if heroHp <= 0 {
          isBattleOver := Some(Lost);
        }
      } else {
        battleLog := [LogEntry(playerMove, monsterMove, Draw, false)] + battleLog;
      }
    }
  }

  /** `Math.max(0, x)`. */
  function Max0(x: int): (r: int)
    ensures r >= 0 && r >= x && (r == 0 || r == x)
  {
    if x > 0 then x else 0
  }

  // ---------------------------------------------------------------------
  // Scenarios proved from the handlers' contracts alone

  /** From a fresh battle, three losing rounds in a row: the third one, and only it, ends the battle. */
  method ThreeLossesEndTheBattle(game: LittleHeroGame)
    requires game.Valid() && game.selectedStage == Some(1)
    modifies game
    ensures game.Valid()
    ensures game.isBattleOver == Some(Lost) && game.heroHp == 0 && game.monsterMood == MaxMood
    ensures |game.battleLog| == 3
  {
    game.StartBattle();
    // stage 1 draws from [rock, scissors, rock]; scissors loses to the rock at index 0
    game.HandleBattleMove(Scissors, 0);
    assert game.isBattleOver == None && game.heroHp == 2;
    game.HandleBattleMove(Scissors, 0);
    assert game.isBattleOver == None && game.heroHp == 1;
    game.HandleBattleMove(Scissors, 0);
  }

  /** A warrior wins twice with the talent move: the mood falls 3, 1, 0 and stage 1 is cleared. */
  method TwoTalentWinsClearTheStage(game: LittleHeroGame)
    requires game.Valid() && game.selectedStage == Some(1) && game.heroTalent == Gifted(Rock)
    modifies game
    ensures game.Valid()
    ensures game.isBattleOver == Some(Won) && game.monsterMood == 0 && game.heroHp == MaxHp
    ensures 1 in game.clearedStages
  {
    game.StartBattle();
    // rock beats the scissors at index 1 of [rock, scissors, rock], for damage 2
    game.HandleBattleMove(Rock, 1);
    assert game.isBattleOver == None && game.monsterMood == 1;
    game.HandleBattleMove(Rock, 1);
  }

  /** Winning a stage that is already cleared leaves the cleared list and the messages as they were. */
  method ReclearingChangesNoProgress(game: LittleHeroGame, move: Move, pick: nat)
    requires game.Valid() && game.selectedStage == Some(1) && 1 in game.clearedStages
    requires pick < |MovePool(StageConfig(1))|
    modifies game
    ensures game.Valid()
    ensures game.clearedStages == old(game.clearedStages)
    ensures game.completedLines == old(game.completedLines)
    ensures game.loveMsg == old(game.loveMsg) && game.courageMsg == old(game.courageMsg)
  {
    game.HandleBattleMove(move, pick);
  }
}
