/** The game objects, updated in place as the source does.

    Each method changes the fields of the objects it names in `modifies` and no
    more, and its postcondition says that the new snapshot of those objects is
    what the matching function of `Rules` or `Encounter` computes from the old
    one; the properties of those functions then hold of the objects.
 */
module Engine {
  import Rules
  import Encounter

  class Character {
    var name: string
    var characterClass: Rules.CharClass
    var hp: int
    var attack: int
    var magic: int
    var level: int
    var experience: int
    var inventory: seq<Rules.Item>
    var alive: bool
    var skills: seq<string>
    var equipment: map<string, Rules.Option<Rules.Item>>
    var gold: int

    /** The value of every field the engine uses. */
    function State(): Rules.CharacterState
      reads this
    {
      Rules.CharacterState(name, characterClass, hp, attack, magic, level, experience,
                           inventory, alive, skills, equipment, gold)
    }

    constructor (name: string, characterClass: Rules.CharClass)
      ensures State() == Rules.NewCharacter(name, characterClass)
    {
      this.name := name;
      this.characterClass := characterClass;
      hp := Rules.MAX_HP;
      attack := Rules.START_ATTACK;
      magic := Rules.START_MAGIC;
      level := 1;
      experience := 0;
      inventory := [];
      alive := true;
      skills := [];
      equipment := Rules.NO_EQUIPMENT;
      gold := Rules.START_GOLD;
    }

    method TakeDamage(damage: int)
      modifies this
      ensures State() == Rules.CharacterTakeDamage(old(State()), damage)
    {
      hp := hp - damage;
      if hp <= 0 {
        alive := false;
      }
    }

    method Heal(amount: int)
      modifies this
      ensures State() == Rules.Heal(old(State()), amount)
    {
      hp := if Rules.MAX_HP <= hp + amount then Rules.MAX_HP else hp + amount;
    }

    method LevelUp()
      modifies this
      ensures State() == Rules.LevelUp(old(State()))
    {
      if experience >= level * 10 {
        level := level + 1;
        attack := attack + 5;
        hp := Rules.MAX_HP;
        magic := magic + 2;
        experience := 0;
      }
    }

    method AttackEnemy(enemy: Enemy, roll: int)
      requires attack - 2 <= roll <= attack + 2
      modifies enemy
      ensures enemy.State() == Rules.AttackEnemy(State(), old(enemy.State()), roll)
      ensures State() == old(State())
    {
      enemy.TakeDamage(roll);
    }

    method CastSpell(enemy: Enemy, roll: int)
      requires magic >= Rules.SPELL_COST ==> 10 <= roll <= 20
      modifies this, enemy
      ensures Rules.Duel(State(), enemy.State()) ==
              Rules.CastSpell(old(State()), old(enemy.State()), roll)
    {
      if magic >= Rules.SPELL_COST {
        enemy.TakeDamage(roll);
        magic := magic - Rules.SPELL_COST;
      }
    }

    method SpecialAttack(enemy: Enemy, roll: int)
      requires magic >= Rules.SPECIAL_COST ==> 25 <= roll <= 40
      modifies this, enemy
      ensures Rules.Duel(State(), enemy.State()) ==
              Rules.SpecialAttack(old(State()), old(enemy.State()), roll)
    {
      if magic >= Rules.SPECIAL_COST {
        enemy.TakeDamage(roll);
        magic := magic - Rules.SPECIAL_COST;
      }
    }

    method Equip(item: Rules.Item)
      modifies this
      ensures State() == Rules.Equip(old(State()), item)
    {
      if item.kind == "weapon" {
        equipment := equipment["weapon" := Rules.Some(item)];
      } else if item.kind == "armor" {
        equipment := equipment["armor" := Rules.Some(item)];
      }
    }
  }

  class Enemy {
    var name: string
    var hp: int
    var attack: int
    var alive: bool

    function State(): Rules.EnemyState
      reads this
    {
      Rules.EnemyState(name, hp, attack, alive)
    }

    constructor (name: string, hp: int, attack: int)
      ensures State() == Rules.EnemyState(name, hp, attack, true)
    {
      this.name := name;
      this.hp := hp;
      this.attack := attack;
      alive := true;
    }

    method TakeDamage(damage: int)
      modifies this
      ensures State() == Rules.EnemyTakeDamage(old(State()), damage)
    {
      hp := hp - damage;
      if hp <= 0 {
        alive := false;
      }
    }

    method AttackCharacter(character: Character, roll: int)
      requires attack - 2 <= roll <= attack + 2
      modifies character
      ensures character.State() == Rules.EnemyAttack(State(), old(character.State()), roll)
      ensures State() == old(State())
    {
      character.TakeDamage(roll);
    }
  }

  /** `Item.use`: the item's effect applied to the character. */
  method Use(item: Rules.Item, character: Character)
    modifies character
    ensures character.State() == Rules.UseItem(item, old(character.State()))
  {
    match item.effect
    case HealBy(amount) => character.Heal(amount);
  }

  class Town {
    const name: string
    const npcs: seq<string>

    constructor ()
      ensures name == "Isekai Village"
      ensures npcs == ["Shopkeeper", "Guild Master", "Mysterious Stranger"]
    {
      name := "Isekai Village";
      npcs := ["Shopkeeper", "Guild Master", "Mysterious Stranger"];
    }

    /** `Town.enter` with the player's answer: "1" shops, "2" joins the guild,
        anything else leaves the character as it was. */
    method Enter(player: Character, answer: string)
      modifies player
      ensures answer == "1" ==> player.State() == Rules.Shop(old(player.State()))
      ensures answer == "2" ==> player.State() == Rules.JoinGuild(old(player.State()))
      ensures answer != "1" && answer != "2" ==> player.State() == old(player.State())
    {
      if answer == "1" {
        Shop(player);
      } else if answer == "2" {
        JoinGuild(player);
      }
    }

    method Shop(player: Character)
      modifies player
      ensures player.State() == Rules.Shop(old(player.State()))
    {
      player.inventory := player.inventory + [Rules.POTION];
      player.gold := player.gold - Rules.POTION_PRICE;
    }

    method JoinGuild(player: Character)
      modifies player
      ensures player.State() == Rules.JoinGuild(old(player.State()))
    {
      player.skills := player.skills + [Rules.GUILD_SKILL];
    }
  }

  /** The answer-dependent half of a pass of the `combat` loop: one of the four
      moves, or, for an invalid answer, a blow from the enemy. */
  method PlayerAction(player: Character, enemy: Enemy, action: Encounter.Action)
    requires Encounter.ValidAction(action)
    modifies player, enemy
    ensures Rules.Duel(player.State(), enemy.State()) ==
            Encounter.Act(old(player.State()), old(enemy.State()), action)
  {
    match action {
      case Attack(j) => player.AttackEnemy(enemy, player.attack + j);
      case Cast(roll) => player.CastSpell(enemy, roll);
      case Special(roll) => player.SpecialAttack(enemy, roll);
      case Defend =>
      case Invalid(j) => enemy.AttackCharacter(player, enemy.attack + j);
    }
  }

  /** One pass of the `combat` loop: the player's move, then the enemy's blow if
      it survived, or else the reward for the kill. */
  method PlayRound(player: Character, enemy: Enemy, round: Encounter.Round)
    requires Encounter.ValidRound(round)
    modifies player, enemy
    ensures Rules.Duel(player.State(), enemy.State()) ==
            Encounter.PlayRound(old(player.State()), old(enemy.State()), round)
  {
    PlayerAction(player, enemy, round.action);
    if enemy.alive {
      enemy.AttackCharacter(player, enemy.attack + round.jitter);
    } else {
      player.experience := player.experience + Encounter.VICTORY_EXPERIENCE;
      player.LevelUp();
    }
  }

  /** `combat`: reads one round per pass of the loop while both are alive.  It
      returns how many rounds it read; both are still alive afterwards only when
      the rounds ran out.  The source's two `break`s (after a kill, and after the
      player's death) leave the loop exactly when its condition turns false, so
      the condition takes their place here. */
  method Combat(player: Character, enemy: Enemy, rounds: seq<Encounter.Round>)
    returns (used: nat)
    requires Encounter.ValidRounds(rounds)
    modifies player, enemy
    ensures var r := Encounter.Fight(old(player.State()), old(enemy.State()), rounds);
      player.State() == r.character && enemy.State() == r.enemy && used == r.used
    ensures !player.alive || !enemy.alive || used == |rounds|
    ensures old(enemy.attack) >= 3 && Rules.CharacterConsistent(old(player.State())) &&
            |rounds| >= old(player.hp)
            ==> !player.alive || !enemy.alive
  {
    ghost var c0, e0 := player.State(), enemy.State();
    used := 0;
    while used < |rounds| && player.alive && enemy.alive
      invariant used <= |rounds|
      invariant Encounter.ValidRounds(rounds[used..])
      invariant var whole := Encounter.Fight(c0, e0, rounds);
        var rest := Encounter.Fight(player.State(), enemy.State(), rounds[used..]);
        whole == rest.(used := used + rest.used)
      decreases |rounds| - used
    {
      ghost var c, e, rest := player.State(), enemy.State(), rounds[used..];
      Encounter.FightStep(c, e, rest);
      PlayRound(player, enemy, rounds[used]);
      used := used + 1;
      assert rest[1..] == rounds[used..];
    }
    if e0.attack >= 3 && Rules.CharacterConsistent(c0) && |rounds| >= c0.hp {
      Encounter.FightDecides(c0, e0, rounds);
    }
  }

  class Dungeon {
    const difficulty: string
    const size: int

    /** `Dungeon.__init__` with the size roll of `randint(3, 5)`. */
    constructor (difficulty: string, sizeRoll: int)
      requires 3 <= sizeRoll <= 5
      ensures this.difficulty == difficulty && size == sizeRoll
      ensures 3 <= size <= 5
    {
      this.difficulty := difficulty;
      size := sizeRoll;
    }

    /** One level of `Dungeon.explore`: a fresh Goblin and a call of `combat`. */
    method FightGoblin(player: Character, spawn: Encounter.Spawn, rounds: seq<Encounter.Round>)
      returns (used: nat, goblinAlive: bool)
      requires Encounter.ValidRounds(rounds)
      modifies player
      ensures var f := Encounter.Fight(old(player.State()), Encounter.Goblin(spawn), rounds);
        player.State() == f.character && goblinAlive == f.enemy.alive && used == f.used
    {
      var enemy := new Enemy("Goblin", spawn.hp, spawn.attack);
      used := Combat(player, enemy, rounds);
      goblinAlive := enemy.alive;
    }

    /** The `for` loop of `Dungeon.explore`: one fight per level against a fresh
        Goblin, stopping at the first death of the player.  When the rounds run
        out inside a fight the source's `input()` would raise, and the run is
        abandoned (`interrupted`). */
    method Descend(player: Character, spawns: seq<Encounter.Spawn>,
                   rounds: seq<Encounter.Round>)
      returns (levels: nat, interrupted: bool)
      requires |spawns| == size
      requires forall i :: 0 <= i < |spawns| ==> Encounter.ValidSpawn(spawns[i])
      requires Encounter.ValidRounds(rounds)
      modifies player
      ensures Encounter.Descend(old(player.State()), spawns, rounds) ==
              Encounter.Descent(player.State(), levels, interrupted)
    {
      ghost var whole := Encounter.Descend(player.State(), spawns, rounds);
      Encounter.ResumeStart(player.State(), spawns, rounds);
      var i: nat, used: nat := 0, 0;
      interrupted := false;
      while i < size
        invariant !interrupted && Encounter.Resumes(whole, player.State(), spawns, rounds, i, used)
        decreases size - i
      {
        ghost var c := player.State();
        var k, goblinAlive := FightGoblin(player, spawns[i], rounds[used..]);
        ghost var fight := Encounter.Fight(c, Encounter.Goblin(spawns[i]), rounds[used..]);
        Encounter.ResumeNext(whole, c, spawns, rounds, i, used);
        i := i + 1;
        if player.alive && goblinAlive {
          interrupted := true;
          break;
        }
        used := used + k;
        if !player.alive {
          break;
        }
        assert Encounter.Resumes(whole, fight.character, spawns, rounds, i, used);
      }
      if !interrupted && player.alive {
        Encounter.ResumeEnd(whole, player.State(), spawns, rounds, used);
      }
      levels := i;
    }

    /** `Dungeon.explore`: the fights, then 100 gold and 20 experience, paid once
        and only if the player is still alive, with no `level_up` check. */
    method Explore(player: Character, spawns: seq<Encounter.Spawn>,
                   rounds: seq<Encounter.Round>)
      returns (outcome: Encounter.Outcome, levels: nat)
      requires |spawns| == size
      requires forall i :: 0 <= i < |spawns| ==> Encounter.ValidSpawn(spawns[i])
      requires Encounter.ValidRounds(rounds)
      modifies player
      ensures var x := Encounter.Explore(old(player.State()), spawns, rounds);
        player.State() == x.character && outcome == x.outcome && levels == x.levels
      ensures levels <= size
      ensures outcome == Encounter.Conquered ==> player.gold == old(player.gold) + 100
      ensures outcome != Encounter.Conquered ==> player.gold == old(player.gold)
    {
      var interrupted;
      levels, interrupted := Descend(player, spawns, rounds);
      if interrupted {
        outcome := Encounter.Interrupted;
        return;
      }
      if player.alive {
        player.gold := player.gold + Encounter.DUNGEON_GOLD;
        player.experience := player.experience + Encounter.DUNGEON_EXPERIENCE;
        outcome := Encounter.Conquered;
      } else {
        outcome := Encounter.Fallen;
      }
    }
  }

  /** The class choice of `main`: "warrior", "mage" or "healer" (already lower-cased);
      any other answer gives a Warrior. */
  method CreatePlayer(name: string, choice: string) returns (player: Character)
    ensures fresh(player)
    ensures player.State() == Rules.StartingCharacter(name, choice)
  {
    if choice == "warrior" {
      player := new Character(name, Rules.Warrior);
    } else if choice == "mage" {
      player := new Character(name, Rules.Mage);
      player.magic := player.magic + 10;
    } else if choice == "healer" {
      player := new Character(name, Rules.Healer);
      player.hp := player.hp + 30;
      player.magic := player.magic + 5;
    } else {
      player := new Character(name, Rules.Warrior);
    }
  }
}
