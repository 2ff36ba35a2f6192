# Little Hero: a Dafny model of the battle, stage and session rules

Little Hero is a children's rock/scissors/paper adventure. A hero named after a
warrior, mage or priest (or a plain villager) calms the monster of one of nine
stages on a 3x3 map. Each win lowers the monster's mood by one, or by two when
the hero plays their talent move. Each loss costs one heart. A stage is cleared
when the mood reaches zero. Rows, columns and diagonals of cleared stages form
"bingo" lines. A small stand-alone page plays plain rounds and counts wins. A
server keeps each player's progress in a `game_sessions` table.

The model has three modules, one per source file, plus a shared `Option` type:

- `HeroGame` (`hero_game.dfy`) covers the game component.
  - The pure rules are functions: the round's outcome, the stage table, the monster's move pool, the hero's talent and damage, and the bingo lines.
  - The component's state cells form the class `LittleHeroGame`, and its handlers are methods that update them.
- `ClassicBattle` (`classic_battle.dfy`) covers the stand-alone page: `getResult`, plus the page's win counter as a class.
- `GameRoutes` (`game_routes.dfy`) covers the session routes over a map from session id to session row.
  - It includes the comma-joined string encoding of the cleared-stage list.
  - It proves the round trip between that string and the list.

Random draws (`Math.random`) are a parameter `pick`, the index the draw would
have produced. Database-generated values (the new session's id and creation
time) are parameters too.

Two behaviours of the code worth knowing; the model follows the code:

- The monster's move pool is talent-weighted: the allowed moves, then the talent once more. It is not uniform over the allowed moves.
- Clearing a stage that is already cleared adds no duplicate to the list. It still adds one star on the server, and that is not idempotent.

## Model

| member | source | states |
|---|---|---|
| HeroGame.Resolve | client/src/components/LittleHeroGame.tsx:140-149 | equal moves draw; the hero wins exactly when their move beats the monster's in the cycle rock > scissors > paper > rock; loses exactly when the monster's move beats theirs |
| HeroGame.ResolveAntisymmetric | client/src/components/LittleHeroGame.tsx:140-149 | for two different moves, one order wins exactly when the other loses, and neither draws |
| HeroGame.StageConfig | client/src/components/LittleHeroGame.tsx:30-40 | every stage has a forbidden move and its talent differs from it |
| HeroGame.AllowedMoves | client/src/components/LittleHeroGame.tsx:135 | no move left by the filter is the forbidden one (its length and counts are AllowedMovesLength and AllowedMovesCount) |
| HeroGame.AllowedMovesLength | client/src/components/LittleHeroGame.tsx:135 | two moves remain when one is forbidden, all three otherwise |
| HeroGame.AllowedMovesCount | client/src/components/LittleHeroGame.tsx:135 | filtering out the forbidden move keeps every other move exactly once and drops the forbidden one |
| HeroGame.MovePool | client/src/components/LittleHeroGame.tsx:135-137 | the pool has three moves with a forbidden move, four without |
| HeroGame.MovePoolContents | client/src/components/LittleHeroGame.tsx:135-137 | a move is in the pool iff it is not forbidden or is the talent; a non-forbidden talent occurs twice, every other allowed move once |
| HeroGame.MonsterNeverPlaysForbidden | client/src/components/LittleHeroGame.tsx:134-138 | for every stage and every index into its pool, the monster's move is not the stage's forbidden move |
| HeroGame.Includes | client/src/components/LittleHeroGame.tsx:86-88 | `includes` is true iff the title occurs as a contiguous substring of the name |
| HeroGame.HeroIdOf | client/src/components/LittleHeroGame.tsx:86-88 | warrior iff the name holds 戰士; mage iff not warrior and it holds 法師; priest iff neither and it holds 牧師; villager iff none of the three |
| HeroGame.DefaultHeroIsWarrior | client/src/components/LittleHeroGame.tsx:71 | a component given no hero name (the default 戰士) plays the warrior, whose talent is rock |
| HeroGame.HeroTalent | client/src/components/LittleHeroGame.tsx:90-95 | the talent is 'any' exactly for the villager |
| HeroGame.Damage | client/src/components/LittleHeroGame.tsx:155-163 | damage is 1 or 2, and 2 iff the hero's talent is the move played |
| HeroGame.VillagerNeverDoublesDamage | client/src/components/LittleHeroGame.tsx:86-97 | a hero whose name holds none of the titles never deals double damage |
| HeroGame.LinesUpTo | client/src/components/LittleHeroGame.tsx:99-105 | the result holds exactly the indices of the bingo lines whose cells are all cleared, in increasing order |
| HeroGame.CompletedLines | client/src/components/LittleHeroGame.tsx:99-105 | holds exactly the indices of all bingo lines whose cells are all cleared |
| HeroGame.FindCompletedLines | client/src/components/LittleHeroGame.tsx:100-105 | the loop over BINGO_LINES collects exactly the completed lines, in order |
| HeroGame.Unrecorded | client/src/components/LittleHeroGame.tsx:108 | the result holds exactly the new lines not already recorded |
| HeroGame.LineClearedGrows | client/src/components/LittleHeroGame.tsx:170-173 | appending a cleared stage never un-completes a completed line |
| HeroGame.Max0 | client/src/components/LittleHeroGame.tsx:164 | the clamped mood is non-negative, at least its argument, and either 0 or the argument |
| HeroGame.LittleHeroGame.constructor | client/src/components/LittleHeroGame.tsx:71-97 | the initial state: map view, nothing cleared or selected, no messages, empty log, mood 3, hearts 3, battle running, no lines; the talent follows from the hero name, or from 戰士 when no name is given, which makes it rock |
| HeroGame.LittleHeroGame.HandleStageSelect | client/src/components/LittleHeroGame.tsx:115-119 | selects the stage and hides both messages; nothing else changes and the state stays valid |
| HeroGame.LittleHeroGame.StartBattle | client/src/components/LittleHeroGame.tsx:121-129 | without a selected stage nothing changes; with one, battle view, mood 3, hearts 3, empty log and no verdict, progress kept |
| HeroGame.LittleHeroGame.BackToMap | client/src/components/LittleHeroGame.tsx:396 | returns to the map view and changes nothing else |
| HeroGame.LittleHeroGame.MonsterMove | client/src/components/LittleHeroGame.tsx:134-138 | the monster's move for the drawn index of the selected stage's pool is never that stage's forbidden move |
| HeroGame.LittleHeroGame.CheckBingo | client/src/components/LittleHeroGame.tsx:99-113 | when some completed line is not recorded yet, the recorded lines become all completed lines and the courage message shows; otherwise nothing changes |
| HeroGame.LittleHeroGame.RecordClear | client/src/components/LittleHeroGame.tsx:170-175 | a stage not cleared yet is appended once, the love message shows and the bingo check runs; a stage cleared before changes nothing; the cleared list stays free of duplicates and recorded lines stay complete |
| HeroGame.LittleHeroGame.HandleBattleMove | client/src/components/LittleHeroGame.tsx:131-188 | a finished battle or no stage changes nothing; otherwise exactly one log entry is prepended; a win lowers the mood by the damage, clamped at 0, and is a victory iff the mood reaches 0; a loss costs one heart and is a defeat iff the hearts reach 0; a draw changes neither; a victory on an uncleared stage appends it once, shows the love message and runs the bingo check; mood and hearts stay in [0,3], the cleared list has no duplicates, and recorded lines stay complete |
| HeroGame.ThreeLossesEndTheBattle | client/src/components/LittleHeroGame.tsx:177-183 | from a fresh battle on stage 1, three losses in a row end it lost with 0 hearts and three log entries |
| HeroGame.TwoTalentWinsClearTheStage | client/src/components/LittleHeroGame.tsx:155-175 | a warrior winning twice with rock on stage 1 takes the mood from 3 to 1 to 0, wins, and clears stage 1 |
| HeroGame.ReclearingChangesNoProgress | client/src/components/LittleHeroGame.tsx:168-175 | a round on an already cleared stage leaves the cleared list, the recorded lines and the messages as they were |
| ClassicBattle.GetResult | client/src/client/src/main.js:27-37 | equal choices draw and only they do; the player wins exactly for 剪刀/布, 石頭/剪刀 and 布/石頭 |
| ClassicBattle.BeatsPairs | client/src/client/src/main.js:29-33 | the winning pairs of the page are exactly the pairs in which a choice meets the one listed before it in `choices`, cyclically |
| ClassicBattle.GetResultAntisymmetric | client/src/client/src/main.js:27-37 | for two different choices, one order wins exactly when the other loses, and neither draws |
| ClassicBattle.EnemyChoice | client/src/client/src/main.js:42 | the enemy's move for any index below 3 is one of the three choices |
| ClassicBattle.ScoreBoard.constructor | client/src/client/src/main.js:23 | the win counter starts at 0 |
| ClassicBattle.ScoreBoard.Click | client/src/client/src/main.js:41-54 | the enemy plays the chosen element of the choices; the counter rises by exactly 1 on a win, is unchanged otherwise, and never decreases |
| GameRoutes.Split | server/routes.ts:61 | splitting on commas gives at least one piece, and no piece holds a comma |
| GameRoutes.JoinSplit | server/routes.ts:61-67 | joining the pieces of a split gives back the stored string |
| GameRoutes.SplitJoin | server/routes.ts:61-67 | splitting a join of comma-free pieces gives back the pieces |
| GameRoutes.ParseList | server/routes.ts:61 | the stored string is empty iff the parsed list is empty (not `[""]`), and no parsed piece holds a comma |
| GameRoutes.ParseJoin | server/routes.ts:61-67 | a list of comma-free pieces, one of them non-empty, is what parsing its joined string gives |
| GameRoutes.Join | server/routes.ts:67 | `join(",")`; its round trips with the split are JoinSplit and SplitJoin, its comma count is JoinCommas |
| GameRoutes.JoinCommas | server/routes.ts:67 | joining comma-free pieces puts exactly one comma between each two, none for an empty list |
| GameRoutes.IntToDecimal | server/routes.ts:62-63 | the text of a stage number is non-empty and holds no comma; a non-negative number reads back as itself, and a negative one as a minus sign followed by its magnitude |
| GameRoutes.NatToDecimal | server/routes.ts:62-63 | the decimal text of a natural number is non-empty and made of digits |
| GameRoutes.NatToDecimalValue | server/routes.ts:62-63 | reading the decimal text of a natural number back gives that number |
| GameRoutes.IntToDecimalInjective | server/routes.ts:62 | two stage numbers with the same text are equal, so the `includes` test never mistakes one stage for another |
| GameRoutes.RecordStage | server/routes.ts:62-64 | the stage is in the result; the old list is a prefix of it; it grows by one exactly when the stage was absent, and stays equal otherwise; nothing else is added; a list without repeats stays without repeats |
| GameRoutes.ClearedAfter | server/routes.ts:61-67 | reading back the stored list after a clear gives the old list with the stage added if it was absent |
| GameRoutes.ClearStageTwice | server/routes.ts:61-67 | clearing the same stage twice stores the same cleared list as clearing it once |
| GameRoutes.ApplyPatch | server/storage.ts:23-30 | the columns a partial update names take its values; every other column keeps its value |
| GameRoutes.Truthy | server/routes.ts:15 | a string body field passes the `!field` test exactly when it is present and not empty |
| GameRoutes.TruthyNumber | server/routes.ts:52 | a number body field passes the `!field` test exactly when it is present and not zero |
| GameRoutes.SessionStore.constructor | server/storage.ts:12-16 | the session table starts empty |
| GameRoutes.SessionStore.NewGame | server/routes.ts:11-32 | without a hero name or power: 400 and no session; otherwise one new session with empty cleared stages, 3 hearts, 0 stars and no bingo lines, and no other change |
| GameRoutes.SessionStore.GetSession | server/routes.ts:35-45 | a known id gives its session; an unknown id gives 404 |
| GameRoutes.SessionStore.ClearStage | server/routes.ts:48-75 | a missing id or stage gives 400 and an unknown session gives 404, both with the table unchanged; otherwise the stage is recorded once in the stored list and the stars rise by exactly 1, with every other column and session untouched |
| GameRoutes.SessionStore.Update | server/routes.ts:78-101 | a missing id gives 400 and an unknown session gives 404, both with the table unchanged; otherwise exactly the defined fields among hearts, stars and bingo lines are overwritten, every other column and every other session untouched; a request defining none of them changes nothing |
| GameRoutes.ClearingTwiceKeepsTheList | server/routes.ts:48-75 | two clears of the same stage leave the list the first one stored, and add two stars |

## Left out

- Rendering, animation, images and flavour text are not modelled. This covers monster names, locations and descriptions, and the emoji wording of log lines. A log line is a record of both moves, the outcome and whether the talent fired.
- The love and courage sentences are two flags saying whether a message is shown. The random pick of the sentence is not modelled.
- `Math.random` is not modelled. Each draw is the caller's index into the pool or the choices.
- Stage selection accepts only the nine map cells. The model's stage ids are the integers 1 to 9.
- React's asynchronous state batching is not modelled. Each handler runs as one atomic step over the values it reads. Within one call, the code's reads of `monsterMood`, `heroHp`, `clearedStages` and `completedLines` all see the values from before the call, and so does the model.
- The battle log grows without bound, as in the code. No recent-history cap is modelled.
- The stand-alone page's DOM text updates are not modelled, only the result and the win counter.
- HTTP, JSON parsing, `async` and the database are not modelled. The session table is a map. A request body field is `None` when it is undefined. Non-string or `null` body values, non-integer or non-numeric `stageNumber` values and the 500 error paths are left out.
- `String(stageNumber)` is modelled as the decimal text of an integer.
- GameRoutes.IntToDecimal: JavaScript writes integers of magnitude 10^21 and above in exponent form ("1e+21"); the model writes every integer in plain decimal digits, because such stage numbers are far outside the nine stages.
- GameRoutes.SessionStore.Update: does not model the database library's rejection of an update that names no column. The model leaves the row unchanged, because that library behaviour is not part of this model.
- The session id and creation time are parameters standing for the database's `gen_random_uuid()` and `NOW()`. A fresh id is required not to be in the table already.
- The menu page, the app shell and the other pages are not part of this model.
