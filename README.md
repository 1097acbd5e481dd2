# Isekai Fantasy Adventure: combat and progression engine

This project models the game engine behind the text adventure
`isekai_fantasy_adventure.py`, and proves properties of it:

- the `Character` and `Enemy` stat operations: damage, healing, levelling up,
  the basic attack, the spell, the special attack, equipping;
- the healing potion, `Item.use`;
- the town: the shop and the guild;
- the `combat` turn loop;
- the `Dungeon` run, which is up to five fights with a reward at the end;
- the starting stats picked by the class choice in `main`.

The project has three modules:

- `Rules` (`rules.dfy`) takes a snapshot of every field the engine uses, as
  `CharacterState` and `EnemyState`. It defines each single operation as a
  function on snapshots. The contracts state what each operation does to every
  field.
- `Encounter` (`encounter.dfy`) defines one round of combat (`PlayRound`), a
  whole fight (`Fight`) and a dungeon run (`Descend`, `Explore`) as functions
  of a sequence of rounds. It also holds the lemmas about them:
  - a fight always ends when the input suffices;
  - a kill by the player draws no retaliation;
  - an invalid answer is punished twice;
  - the dungeon reward is paid once.
- `Engine` (`engine.dfy`) holds the objects as the source has them. The classes
  `Character`, `Enemy`, `Town` and `Dungeon` have mutable fields. Every method
  is proved to leave its objects in exactly the state that the matching
  function computes from the old state:
  - `combat` is a `while` loop over the two objects;
  - `Dungeon.explore` is a loop of fights with an early exit.

Input and randomness become parameters:

- Each `random.randint` is a roll. A `requires` clause states the roll's
  inclusive bounds.
- In a fight, the attack roll `randint(a - 2, a + 2)` is written as
  `a + jitter`, with the jitter in [-2, 2].
- The answers a fight reads are a sequence of `Round`s, one per pass of the
  loop. Each `Round` holds the classified answer and the rolls it draws.
- When the sequence runs out while both sides are alive, the source's `input()`
  would raise `EOFError`:
  - the fight stops with every round read;
  - a dungeon run then ends as `Interrupted`, without a reward.

Where the program's names and messages promise more than its code does, the
model follows the code:

- hp is not clamped at 0; damage subtracts exactly.
- `MAX_MAGIC` and `MAX_LEVEL` are declared but never enforced. `LevelUpPassesMaxMagic` and `LevelUpPassesMaxLevel` show that both can be passed.
- Defend does nothing at all. The enemy's blow after it is the usual one.
- A dead character can still be healed. Healing does not revive it (`HealDoesNotRevive`).
- A Healer starts at 130 hp, above `MAX_HP`. Any non-negative heal brings that down to `MAX_HP` (`HealerHealLowersHp`).
- Damage and heal amounts are any integers, not only non-negative ones.

## Model

| member | source | states |
|---|---|---|
| Rules.NewCharacter | isekai_fantasy_adventure.py:41-57 | A new character has the given name and class. It is alive, with 100 hp, level 1, 0 experience, attack 10, magic 5 and 50 gold. It has empty inventory and skills, and exactly the slots "weapon" and "armor", both empty. |
| Rules.StartingCharacter | isekai_fantasy_adventure.py:269-280 | "mage" gives a Mage with magic 15, "healer" a Healer with hp 130 and magic 10, anything else a Warrior. Hp exceeds MAX_HP exactly for the Healer. Every other field is that of a new character. |
| Rules.CharacterTakeDamage | isekai_fantasy_adventure.py:59-64 | Hp drops by exactly the damage, with no clamping. The character is alive afterwards iff it was alive and hp is positive, so it is never revived. No other field changes. |
| Rules.EnemyTakeDamage | isekai_fantasy_adventure.py:142-147 | The same rule for an enemy. Name and attack are kept. |
| Rules.Heal | isekai_fantasy_adventure.py:66-69 | Hp becomes min(MAX_HP, hp + amount), so it is at most MAX_HP even from above. Every other field, `alive` included, is unchanged. |
| Rules.LevelUp | isekai_fantasy_adventure.py:71-79 | At the threshold: level +1, attack +5, magic +2 with no cap, hp back to MAX_HP, experience 0. Below it nothing changes. One call raises the level by at most 1, and for a non-negative level it leaves the character below the threshold. |
| Rules.AttackEnemy | isekai_fantasy_adventure.py:81-85 | The enemy loses exactly the roll, between attack-2 and attack+2, through `take_damage`. The attacker is not part of the result. |
| Rules.EnemyAttack | isekai_fantasy_adventure.py:149-153 | The character loses exactly the roll, between attack-2 and attack+2, through `take_damage`. |
| Rules.CastSpell | isekai_fantasy_adventure.py:87-95 | With magic at least 3, the enemy loses exactly the roll, 10 to 20 hp, through `take_damage`, and magic drops by exactly 3. Otherwise both are unchanged. Non-negative magic stays non-negative. |
| Rules.SpecialAttack | isekai_fantasy_adventure.py:97-105 | With magic at least 5, the enemy loses exactly the roll, 25 to 40 hp, through `take_damage`, and magic drops by exactly 5. Otherwise both are unchanged. Non-negative magic stays non-negative. |
| Rules.Equip | isekai_fantasy_adventure.py:107-113 | A weapon or an armour fills the slot of its type. An item of any other type changes nothing. Only the equipment changes, and its set of slots is kept. |
| Rules.UseItem | isekai_fantasy_adventure.py:166-169 | Using an item is `Rules.Heal` by its effect's amount: hp becomes min(MAX_HP, hp + amount). Only hp changes, and a non-negative heal does not lower it. |
| Rules.Shop | isekai_fantasy_adventure.py:190-196 | Exactly one potion is appended and exactly 10 gold are taken, with no check on the purse. Nothing else changes. |
| Rules.JoinGuild | isekai_fantasy_adventure.py:198-202 | "Sword Mastery" is appended to the skills, even when already present. Nothing else changes. |
| Rules.LevelUpOnce | isekai_fantasy_adventure.py:71-79 | A second `level_up` right after a first never fires: levelling does not cascade. |
| Rules.LevelUpPassesMaxMagic | isekai_fantasy_adventure.py:77 | Levelling up at MAX_MAGIC takes magic above it. |
| Rules.LevelUpPassesMaxLevel | isekai_fantasy_adventure.py:74 | Levelling up at MAX_LEVEL takes the level above it. |
| Rules.HealerHealLowersHp | isekai_fantasy_adventure.py:274-277 | A new Healer has 130 hp, and any non-negative heal sets it to MAX_HP. |
| Rules.HealDoesNotRevive | isekai_fantasy_adventure.py:66-69 | Healing a dead character keeps it dead, while its hp still changes. |
| Rules.EquipTouchesOneSlot | isekai_fantasy_adventure.py:107-113 | Every slot other than the item's type keeps its presence and its content. |
| Rules.PotionHeals | isekai_fantasy_adventure.py:193 | The shop's potion is `heal(30)`. It restores exactly 30 hp when that stays within MAX_HP. |
| Encounter.Act | isekai_fantasy_adventure.py:208-219 | Attack hits the enemy as `Rules.AttackEnemy` with the player's attack roll. Cast and Special are `Rules.CastSpell` and `Rules.SpecialAttack`. An invalid answer leaves the enemy alone, and the player takes the enemy's blow. Defend changes nothing. The moves change only the player's magic. A dead enemy stays dead. Belongings are kept. |
| Encounter.PlayRound | isekai_fantasy_adventure.py:208-226 | The enemy after the round is the enemy after the player's move. If the enemy survives the move, it strikes the player once: this is `take_damage` on the post-move character, so hp drops by between attack-2 and attack+2, `alive` is false exactly when it was already false or hp is at most 0, and every other field is as after the move. A surviving enemy with attack 3 or more always wounds the player. Killing the enemy never kills the player. A round never leaves both dead. |
| Encounter.Fight | isekai_fantasy_adventure.py:205-229 | At most the given rounds are read. Both are alive afterwards only when the rounds ran out. A fight that starts with both alive never ends with both dead. A fight with a dead side, or with no rounds left, reads nothing and changes nothing. The enemy's identity and the player's belongings are kept. |
| Encounter.FightOn | isekai_fantasy_adventure.py:207-229 | With both alive and a round left, at least one round is read and the fight never ends with both dead. |
| Encounter.FightStep | isekai_fantasy_adventure.py:207-229 | A fight is its first round followed by the fight on the remaining rounds. |
| Encounter.VictoryRound | isekai_fantasy_adventure.py:221-226 | When the player's action kills the enemy, there is no retaliation. The player gains exactly 5 experience, followed by one `level_up` check. |
| Encounter.InvalidRound | isekai_fantasy_adventure.py:217-222 | An invalid answer against a living enemy costs two blows in the same round. The enemy is unchanged. |
| Encounter.FightWounds | isekai_fantasy_adventure.py:149-153 | While the enemy survives, every round read costs at least 1 hp, when its attack is at least 3. |
| Encounter.FightDecides | isekai_fantasy_adventure.py:207 | Termination of `combat`: against attack at least 3, as many rounds as the player has hp always end the fight with a death. |
| Encounter.GoblinFightDecides | isekai_fantasy_adventure.py:252 | The same holds for every enemy the game creates: dungeon goblins (attack 5 to 15) and the wild Goblin of attack 5 (line 313). |
| Encounter.Descend | isekai_fantasy_adventure.py:250-256 | The run enters at most `size` levels, and at least one. It stops early only at a death or when the input runs out. A dead starter is left unchanged. Belongings are kept. |
| Encounter.DescendFrom | isekai_fantasy_adventure.py:250-256 | A pass with a level left enters at least one level and keeps the same bounds. |
| Encounter.DescendStep | isekai_fantasy_adventure.py:250-256 | A run is its first fight, followed by the end of the run (player dead, or input exhausted) or by the run of the remaining levels on the remaining rounds. |
| Encounter.ResumeNext | isekai_fantasy_adventure.py:250-256 | After `i` levels the loop either stops with `i + 1` levels entered or continues to level `i + 1` on the rounds left. |
| Encounter.Explore | isekai_fantasy_adventure.py:247-260 | The levels entered are those of `Encounter.Descend`. The run is Interrupted exactly when the input ran out, and Conquered exactly when it was not interrupted and the player is alive. A conquest has every level entered and pays exactly 100 gold. A fall or an interruption pays nothing. Inventory and skills are kept. A dead player is left unchanged and ends Fallen after one level. |
| Encounter.ConquestReward | isekai_fantasy_adventure.py:257-260 | The reward is +100 gold and +20 experience, applied once to the surviving character, with no `level_up`. |
| Engine.Character.constructor | isekai_fantasy_adventure.py:41-57 | The new object's fields are those of `Rules.NewCharacter`. |
| Engine.Character.TakeDamage | isekai_fantasy_adventure.py:59-64 | The character's new fields are `Rules.CharacterTakeDamage` of the old ones. |
| Engine.Character.Heal | isekai_fantasy_adventure.py:66-69 | The new fields are `Rules.Heal` of the old ones. |
| Engine.Character.LevelUp | isekai_fantasy_adventure.py:71-79 | The new fields are `Rules.LevelUp` of the old ones. |
| Engine.Character.AttackEnemy | isekai_fantasy_adventure.py:81-85 | Only the enemy changes, to `Rules.AttackEnemy`. The attacker is unchanged. |
| Engine.Character.CastSpell | isekai_fantasy_adventure.py:87-95 | The pair of objects changes as `Rules.CastSpell` says. |
| Engine.Character.SpecialAttack | isekai_fantasy_adventure.py:97-105 | The pair of objects changes as `Rules.SpecialAttack` says. |
| Engine.Character.Equip | isekai_fantasy_adventure.py:107-113 | The new fields are `Rules.Equip` of the old ones. |
| Engine.Enemy.constructor | isekai_fantasy_adventure.py:136-140 | A new enemy is alive with the given name, hp and attack. |
| Engine.Enemy.TakeDamage | isekai_fantasy_adventure.py:142-147 | The new fields are `Rules.EnemyTakeDamage` of the old ones. |
| Engine.Enemy.AttackCharacter | isekai_fantasy_adventure.py:149-153 | Only the character changes, to `Rules.EnemyAttack`. The enemy is unchanged. |
| Engine.Use | isekai_fantasy_adventure.py:166-169 | The character changes as `Rules.UseItem` says. |
| Engine.Town.constructor | isekai_fantasy_adventure.py:173-175 | The town is "Isekai Village" with its three NPCs. |
| Engine.Town.Enter | isekai_fantasy_adventure.py:177-188 | "1" shops, "2" joins the guild, any other answer leaves the player unchanged. |
| Engine.Town.Shop | isekai_fantasy_adventure.py:190-196 | The player changes as `Rules.Shop` says. |
| Engine.Town.JoinGuild | isekai_fantasy_adventure.py:198-202 | The player changes as `Rules.JoinGuild` says. |
| Engine.PlayerAction | isekai_fantasy_adventure.py:209-219 | The two objects change as `Encounter.Act` says. |
| Engine.PlayRound | isekai_fantasy_adventure.py:208-226 | The two objects change as `Encounter.PlayRound` says. |
| Engine.Combat | isekai_fantasy_adventure.py:205-229 | The loop leaves both objects as `Encounter.Fight` says and returns the rounds read. Both are alive afterwards only when the rounds ran out. With an enemy attack of at least 3 and at least hp rounds, one side is dead. |
| Engine.Dungeon.constructor | isekai_fantasy_adventure.py:243-245 | The size is the roll of `randint(3, 5)`, so it lies in [3, 5]. The difficulty is kept. |
| Engine.Dungeon.FightGoblin | isekai_fantasy_adventure.py:252-253 | A fresh Goblin with the rolled hp and attack is fought. The player ends as `Encounter.Fight` says. |
| Engine.Dungeon.Descend | isekai_fantasy_adventure.py:250-256 | The `for` loop with its early `break` leaves the player as `Encounter.Descend` says, with the same number of levels and the same interruption. |
| Engine.Dungeon.Explore | isekai_fantasy_adventure.py:247-260 | The player, the outcome and the levels are those of `Encounter.Explore`. At most `size` levels are fought, and gold rises by 100 exactly on a conquest. |
| Engine.CreatePlayer | isekai_fantasy_adventure.py:269-280 | The new player's fields are those of `Rules.StartingCharacter`. |

## Left out

- pygame: the display, drawing (`draw`), the event loop and frame timing. These are presentation only.
- The character's screen position `x`, `y`. Nothing in the engine uses it.
- `print` messages and the `input()` prompts. The answers are parameters: `Action` values in a fight, a string for the town, the already lower-cased class answer for `main`.
- Case folding (`.lower()`) of the class answer. Dafny strings have no case mapping, so the answer arrives lower-cased.
- The classification of the raw combat answer into an `Action`. An answer other than "1" to "4" is `Invalid`.
- `Character.save` and `Character.load` (pickle file I/O). This includes the reload path of `main`, which builds `Character(name, class_choice)` from the raw answer.
- `random_event`, which only prints.
- The `random` module itself. Every roll is a bounded parameter.
- The main menu loop, its "Explore" branch and the dungeon's difficulty label. The wild Goblin of that branch appears only in `GoblinFightDecides`; the difficulty is only printed.
- Arbitrary `Item.effect` closures. The only effect the game creates is the potion's `heal(30)`, which is `HealBy(amount)`.
- The two `break` statements of `combat` are not written out. Each fires exactly when the loop condition turns false, so the condition takes their place.
- An `input()` that runs out raises `EOFError` in the source. The model ends the fight with both alive and ends the dungeon run as `Interrupted`, without a reward; it does not model the exception itself.
- Inside a fight, attack rolls are `attack + jitter` with the jitter in [-2, 2]. This is exactly the range `randint(attack - 2, attack + 2)` draws from.
