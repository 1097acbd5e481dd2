/** One fight (`combat`) and one dungeon run (`Dungeon.explore`) on value snapshots.

    Every `input()` answer of a fight is one `Round` of a sequence; every
    `random.randint` of a round is a roll inside it.  An attack roll
    `randint(a - 2, a + 2)` is written `a + jitter` with the jitter in [-2, 2], so
    that the bounds of a round do not depend on stats that change between fights.
 */
module Encounter {
  import opened Rules

  const VICTORY_EXPERIENCE: int := 5
  const DUNGEON_GOLD: int := 100
  const DUNGEON_EXPERIENCE: int := 20

  /** The player's answer in a round with the roll it draws: "1" attack, "2" spell,
      "3" special attack, "4" defend; any other answer makes the enemy strike with
      damage `attack + jitter`. */
  datatype Action =
    | Attack(jitter: int)
    | Cast(roll: int)
    | Special(roll: int)
    | Defend
    | Invalid(jitter: int)

  /** One round of `combat`: the player's action, then the jitter of the enemy's
      retaliation (drawn only when the enemy survives the action). */
  datatype Round = Round(action: Action, jitter: int)

  predicate ValidJitter(j: int) { -2 <= j <= 2 }

  /** The inclusive bounds of each roll of an action. */
  predicate ValidAction(a: Action)
  {
    match a
    case Attack(j) => ValidJitter(j)
    case Cast(roll) => 10 <= roll <= 20
    case Special(roll) => 25 <= roll <= 40
    case Defend => true
    case Invalid(j) => ValidJitter(j)
  }

  predicate ValidRound(r: Round) { ValidAction(r.action) && ValidJitter(r.jitter) }

  predicate ValidRounds(rounds: seq<Round>)
  {
    forall i :: 0 <= i < |rounds| ==> ValidRound(rounds[i])
  }

  /** The rounds left over after some have been played are still valid. */
  lemma ValidSuffix(rounds: seq<Round>, n: nat)
    requires ValidRounds(rounds) && n <= |rounds|
    ensures ValidRounds(rounds[n..])
  {
  }

  /** The player's half of a round: one of the four moves, or, for an invalid
      answer, a blow from the enemy.  Defend does nothing at all. */
  function Act(c: CharacterState, e: EnemyState, a: Action): (r: Duel)
    requires ValidAction(a)
    ensures a.Invalid? ==>
      r.enemy == e && r.character == CharacterTakeDamage(c, e.attack + a.jitter)
    ensures a.Attack? ==> r == Duel(c, AttackEnemy(c, e, c.attack + a.jitter))
    ensures a.Cast? ==> r == CastSpell(c, e, a.roll)
    ensures a.Special? ==> r == SpecialAttack(c, e, a.roll)
    ensures a.Defend? ==> r == Duel(c, e)
    ensures !a.Invalid? ==> r.character == c.(magic := r.character.magic)
    ensures r.enemy.name == e.name && r.enemy.attack == e.attack
    ensures !e.alive ==> !r.enemy.alive
    ensures SameBelongings(c, r.character)
    ensures CharacterConsistent(c) ==> CharacterConsistent(r.character)
  {
    match a
    case Attack(j) => Duel(c, AttackEnemy(c, e, c.attack + j))
    case Cast(roll) => CastSpell(c, e, roll)
    case Special(roll) => SpecialAttack(c, e, roll)
    case Defend => Duel(c, e)
    case Invalid(j) => Duel(EnemyAttack(e, c, e.attack + j), e)
  }

  /** One pass of the `combat` loop: the player's action, then either the enemy's
      retaliation or, when the enemy has just died, 5 experience and one
      `level_up` check. */
  function PlayRound(c: CharacterState, e: EnemyState, round: Round): (r: Duel)
    requires ValidRound(round)
    ensures r.enemy == Act(c, e, round.action).enemy
    ensures var a := Act(c, e, round.action);
      a.enemy.alive ==>
        r.character == CharacterTakeDamage(a.character, a.character.hp - r.character.hp) &&
        a.character.hp - (e.attack + 2) <= r.character.hp <= a.character.hp - (e.attack - 2)
    ensures r.enemy.alive && e.attack >= 3 ==> r.character.hp < c.hp
    ensures e.alive && !r.enemy.alive ==> r.character.alive == c.alive
    ensures c.alive && e.alive ==> r.character.alive || r.enemy.alive
    ensures r.enemy.name == e.name && r.enemy.attack == e.attack
    ensures SameBelongings(c, r.character)
    ensures CharacterConsistent(c) ==> CharacterConsistent(r.character)
  {
    var a := Act(c, e, round.action);
    if a.enemy.alive then
      Duel(EnemyAttack(a.enemy, a.character, a.enemy.attack + round.jitter), a.enemy)
    else
      var won := a.character.(experience := a.character.experience + VICTORY_EXPERIENCE);
      Duel(LevelUp(won), a.enemy)
  }

  /** The result of `combat`: both combatants and the number of rounds read. */
  datatype FightEnd = FightEnd(character: CharacterState, enemy: EnemyState, used: nat)

  /** `combat`: rounds are played while both sides are alive.  When the answers run
      out with both still alive, `input()` in the source would raise; the fight
      then stops with every round read. */
  function Fight(c: CharacterState, e: EnemyState, rounds: seq<Round>): (r: FightEnd)
    requires ValidRounds(rounds)
    ensures r.used <= |rounds|
    ensures !r.character.alive || !r.enemy.alive || r.used == |rounds|
    ensures c.alive && e.alive ==> r.character.alive || r.enemy.alive
    ensures |rounds| == 0 || !c.alive || !e.alive ==> r == FightEnd(c, e, 0)
    ensures r.enemy.name == e.name && r.enemy.attack == e.attack
    ensures SameBelongings(c, r.character)
    ensures CharacterConsistent(c) ==> CharacterConsistent(r.character)
    decreases |rounds|, 1
  {
    if |rounds| == 0 || !c.alive || !e.alive then FightEnd(c, e, 0)
    else FightOn(c, e, rounds)
  }

  /** A pass of the `combat` loop with both alive and an answer left, then the
      rest of the fight. */
  function FightOn(c: CharacterState, e: EnemyState, rounds: seq<Round>): (r: FightEnd)
    requires ValidRounds(rounds) && |rounds| > 0 && c.alive && e.alive
    ensures 1 <= r.used <= |rounds|
    ensures !r.character.alive || !r.enemy.alive || r.used == |rounds|
    ensures r.character.alive || r.enemy.alive
    ensures r.enemy.name == e.name && r.enemy.attack == e.attack
    ensures SameBelongings(c, r.character)
    ensures CharacterConsistent(c) ==> CharacterConsistent(r.character)
    decreases |rounds|, 0
  {
    var d := PlayRound(c, e, rounds[0]);
    var rest := Fight(d.character, d.enemy, rounds[1..]);
    FightEnd(rest.character, rest.enemy, rest.used + 1)
  }

  /** One pass of the loop, when both are alive and an answer is left. */
  lemma FightStep(c: CharacterState, e: EnemyState, rounds: seq<Round>)
    requires ValidRounds(rounds) && |rounds| > 0 && c.alive && e.alive
    ensures var d := PlayRound(c, e, rounds[0]);
      var rest := Fight(d.character, d.enemy, rounds[1..]);
      Fight(c, e, rounds) == rest.(used := rest.used + 1)
  {
    assert Fight(c, e, rounds) == FightOn(c, e, rounds);
  }

  /** A kill by the player's own action is never answered: the player gains
      exactly 5 experience and then gets one `level_up` check. */
  lemma VictoryRound(c: CharacterState, e: EnemyState, round: Round)
    requires ValidRound(round) && e.alive
    requires !Act(c, e, round.action).enemy.alive
    ensures var a := Act(c, e, round.action);
      PlayRound(c, e, round).character ==
        LevelUp(a.character.(experience := a.character.experience + VICTORY_EXPERIENCE))
    ensures PlayRound(c, e, round).character.hp in {c.hp, MAX_HP}
    ensures !PlayRound(c, e, round).enemy.alive
  {
  }

  /** An invalid answer is punished twice in the same round: once for the answer
      and once more as the usual retaliation, which hits even a player the first
      blow has killed. */
  lemma InvalidRound(c: CharacterState, e: EnemyState, j1: int, j2: int)
    requires ValidJitter(j1) && ValidJitter(j2)
    ensures var r := PlayRound(c, e, Round(Invalid(j1), j2));
      r.enemy == e &&
      (e.alive ==> r.character.hp == c.hp - (e.attack + j1) - (e.attack + j2))
  {
  }

  /** While the enemy survives, every round costs the player at least one hp, so
      the player's hp bounds the number of rounds. */
  lemma {:induction false} FightWounds(c: CharacterState, e: EnemyState, rounds: seq<Round>)
    requires ValidRounds(rounds) && e.attack >= 3
    ensures var r := Fight(c, e, rounds);
      r.enemy.alive ==> r.character.hp <= c.hp - r.used
    decreases |rounds|
  {
    if |rounds| > 0 && c.alive && e.alive {
      var d := PlayRound(c, e, rounds[0]);
      FightWounds(d.character, d.enemy, rounds[1..]);
    }
  }

  /** Termination of `combat`: against an enemy whose attack is at least 3, as many
      answers as the player has hp always suffice; the fight then ends with one
      side dead and never for want of input. */
  lemma FightDecides(c: CharacterState, e: EnemyState, rounds: seq<Round>)
    requires ValidRounds(rounds) && e.attack >= 3
    requires CharacterConsistent(c) && |rounds| >= c.hp
    ensures var r := Fight(c, e, rounds);
      !r.character.alive || !r.enemy.alive
  {
    FightWounds(c, e, rounds);
  }

  /** The enemy rolls of a dungeon level: hp in [20, 50], attack in [5, 15]. */
  datatype Spawn = Spawn(hp: int, attack: int)

  predicate ValidSpawn(s: Spawn) { 20 <= s.hp <= 50 && 5 <= s.attack <= 15 }

  function Goblin(s: Spawn): EnemyState { EnemyState("Goblin", s.hp, s.attack, true) }

  /** The enemy of the "Explore" action of the main menu. */
  const WILD_GOBLIN: EnemyState := EnemyState("Goblin", 50, 5, true)

  /** Every enemy the game creates has attack at least 5, so every fight it starts
      is decided within as many rounds as the player has hp. */
  lemma GoblinFightDecides(c: CharacterState, s: Spawn, rounds: seq<Round>)
    requires ValidSpawn(s) && ValidRounds(rounds)
    requires CharacterConsistent(c) && |rounds| >= c.hp
    ensures var r := Fight(c, Goblin(s), rounds);
      !r.character.alive || !r.enemy.alive
    ensures var r := Fight(c, WILD_GOBLIN, rounds);
      !r.character.alive || !r.enemy.alive
  {
    FightDecides(c, Goblin(s), rounds);
    FightDecides(c, WILD_GOBLIN, rounds);
  }

  /** The fights of a dungeon run: the character, the number of levels entered, and
      whether the answers ran out in the middle of a fight. */
  datatype Descent = Descent(character: CharacterState, levels: nat, interrupted: bool)

  /** The `for` loop of `Dungeon.explore`: one fight per level, each reading the
      rounds the previous ones left, stopping at the first death of the player. */
  function Descend(c: CharacterState, spawns: seq<Spawn>, rounds: seq<Round>): (r: Descent)
    requires ValidRounds(rounds)
    ensures r.levels <= |spawns|
    ensures |spawns| > 0 ==> r.levels > 0
    ensures r.interrupted ==> r.character.alive
    ensures !r.interrupted && r.character.alive ==> r.levels == |spawns|
    ensures r.levels < |spawns| ==> r.interrupted || !r.character.alive
    ensures !c.alive ==> r.character == c && !r.interrupted
    ensures SameBelongings(c, r.character)
    decreases |spawns|, 1
  {
    if |spawns| == 0 then Descent(c, 0, false)
    else DescendFrom(c, spawns, rounds)
  }

  /** A pass of that loop, with a level left: its fight, then the end of the run
      or the remaining levels. */
  function DescendFrom(c: CharacterState, spawns: seq<Spawn>, rounds: seq<Round>): (r: Descent)
    requires ValidRounds(rounds) && |spawns| > 0
    ensures 0 < r.levels <= |spawns|
    ensures r.interrupted ==> r.character.alive
    ensures !r.interrupted && r.character.alive ==> r.levels == |spawns|
    ensures r.levels < |spawns| ==> r.interrupted || !r.character.alive
    ensures !c.alive ==> r.character == c && !r.interrupted
    ensures SameBelongings(c, r.character)
    decreases |spawns|, 0
  {
    var fight := Fight(c, Goblin(spawns[0]), rounds);
    if fight.character.alive && fight.enemy.alive then Descent(fight.character, 1, true)
    else if !fight.character.alive then Descent(fight.character, 1, false)
    else
      var rest := Descend(fight.character, spawns[1..], rounds[fight.used..]);
      Descent(rest.character, rest.levels + 1, rest.interrupted)
  }

  /** One level of the run: the fight, then either the end of the run or the
      remaining levels on the remaining rounds. */
  lemma DescendStep(c: CharacterState, spawns: seq<Spawn>, rounds: seq<Round>)
    requires ValidRounds(rounds) && |spawns| > 0
    ensures var fight := Fight(c, Goblin(spawns[0]), rounds);
      var d := Descend(c, spawns, rounds);
      && (fight.character.alive && fight.enemy.alive ==> d == Descent(fight.character, 1, true))
      && (!fight.character.alive ==> d == Descent(fight.character, 1, false))
      && (fight.character.alive && !fight.enemy.alive ==>
            ValidRounds(rounds[fight.used..]) &&
            var rest := Descend(fight.character, spawns[1..], rounds[fight.used..]);
            d == rest.(levels := rest.levels + 1))
  {
  }

  /** The state of the loop of `Dungeon.explore` after `i` levels and `used`
      rounds: running the remaining levels from `c` ends as the whole run does. */
  predicate Resumes(whole: Descent, c: CharacterState, spawns: seq<Spawn>, rounds: seq<Round>,
                    i: nat, used: nat)
  {
    && i <= |spawns| && used <= |rounds| && ValidRounds(rounds[used..])
    && var rest := Descend(c, spawns[i..], rounds[used..]);
       whole.character == rest.character && whole.interrupted == rest.interrupted &&
       whole.levels == i + rest.levels
  }

  /** Before the first level, the loop state is the start of the run. */
  lemma ResumeStart(c: CharacterState, spawns: seq<Spawn>, rounds: seq<Round>)
    requires ValidRounds(rounds)
    ensures Resumes(Descend(c, spawns, rounds), c, spawns, rounds, 0, 0)
  {
    assert spawns[0..] == spawns && rounds[0..] == rounds;
  }

  /** One level of the loop: the fight either ends the run, with the levels
      fought so far, or leaves the loop state one level further on. */
  lemma ResumeNext(whole: Descent, c: CharacterState, spawns: seq<Spawn>, rounds: seq<Round>,
                   i: nat, used: nat)
    requires Resumes(whole, c, spawns, rounds, i, used) && i < |spawns|
    ensures var fight := Fight(c, Goblin(spawns[i]), rounds[used..]);
      && (fight.character.alive && fight.enemy.alive ==>
            whole == Descent(fight.character, i + 1, true))
      && (!fight.character.alive ==> whole == Descent(fight.character, i + 1, false))
      && (fight.character.alive && !fight.enemy.alive ==>
            Resumes(whole, fight.character, spawns, rounds, i + 1, used + fight.used))
  {
    var fight := Fight(c, Goblin(spawns[i]), rounds[used..]);
    DescendStep(c, spawns[i..], rounds[used..]);
    if fight.character.alive && !fight.enemy.alive {
      var left := rounds[used..];
      assert left[fight.used..] == rounds[used + fight.used..];
      assert spawns[i..][1..] == spawns[i + 1..];
      ValidSuffix(left, fight.used);
      var d := Descend(c, spawns[i..], left);
      var rest := Descend(fight.character, spawns[i + 1..], rounds[used + fight.used..]);
      assert d == rest.(levels := rest.levels + 1);
    }
  }

  /** After the last level the run is over, every level fought. */
  lemma ResumeEnd(whole: Descent, c: CharacterState, spawns: seq<Spawn>, rounds: seq<Round>,
                  used: nat)
    requires Resumes(whole, c, spawns, rounds, |spawns|, used)
    ensures whole == Descent(c, |spawns|, false)
  {
  }

  datatype Outcome = Conquered | Fallen | Interrupted

  datatype Expedition = Expedition(character: CharacterState, outcome: Outcome, levels: nat)

  /** `Dungeon.explore`: the fights, then, only if the player is still alive, 100
      gold and 20 experience, once, with no `level_up` check. */
  function Explore(c: CharacterState, spawns: seq<Spawn>, rounds: seq<Round>): (r: Expedition)
    requires ValidRounds(rounds)
    ensures r.levels <= |spawns|
    ensures r.outcome == Conquered ==>
      r.character.alive && r.levels == |spawns| && r.character.gold == c.gold + DUNGEON_GOLD
    ensures r.outcome == Fallen ==> !r.character.alive && r.character.gold == c.gold
    ensures r.outcome == Interrupted ==> r.character.alive && r.character.gold == c.gold
    ensures r.outcome != Conquered ==> r.character == Descend(c, spawns, rounds).character
    ensures r.character.inventory == c.inventory && r.character.skills == c.skills
    ensures !c.alive ==> r.character == c && (r.outcome == Fallen)
    ensures var d := Descend(c, spawns, rounds);
      && r.levels == d.levels
      && (r.outcome == Interrupted <==> d.interrupted)
      && (r.outcome == Conquered <==> !d.interrupted && d.character.alive)
  {
    var d := Descend(c, spawns, rounds);
    if d.interrupted then Expedition(d.character, Interrupted, d.levels)
    else if d.character.alive then
      var won := d.character.(gold := d.character.gold + DUNGEON_GOLD,
                              experience := d.character.experience + DUNGEON_EXPERIENCE);
      Expedition(won, Conquered, d.levels)
    else Expedition(d.character, Fallen, d.levels)
  }

  /** The reward of a conquered dungeon is paid exactly once and is not followed by
      a level-up, even when it crosses the threshold. */
  lemma ConquestReward(c: CharacterState, spawns: seq<Spawn>, rounds: seq<Round>)
    requires ValidRounds(rounds)
    requires Explore(c, spawns, rounds).outcome == Conquered
    ensures var last := Descend(c, spawns, rounds).character;
      Explore(c, spawns, rounds).character ==
        last.(gold := last.gold + DUNGEON_GOLD, experience := last.experience + DUNGEON_EXPERIENCE)
  {
  }
}
