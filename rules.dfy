/** Value-level rules of the combat-and-progression engine.

    A `CharacterState` is a snapshot of every field of a `Character` that the
    engine reads or writes, an `EnemyState` one of an `Enemy`.  Each function
    below is one operation of the game on such snapshots; the classes of module
    `Engine` are proved to update their fields exactly as these functions say.

    Damage rolls (`random.randint`) are parameters whose inclusive bounds are
    stated in a `requires` clause.
 */
module Rules {

  const MAX_HP: int := 100
  /** Declared by the game but never consulted: `level_up` does not cap the level. */
  const MAX_LEVEL: int := 10
  /** Declared by the game but never consulted: `level_up` does not cap magic. */
  const MAX_MAGIC: int := 20

  const START_ATTACK: int := 10
  const START_MAGIC: int := 5
  const START_GOLD: int := 50

  const SPELL_COST: int := 3
  const SPECIAL_COST: int := 5

  const POTION_HEAL: int := 30
  const POTION_PRICE: int := 10
  const GUILD_SKILL: string := "Sword Mastery"

  datatype Option<T> = None | Some(value: T)

  datatype CharClass = Warrior | Mage | Healer

  /** The only item effect the game creates: the healing potion's `heal(30)`. */
  datatype Effect = HealBy(amount: int)

  /** An item; `kind` is the source's type string ('weapon', 'armor', 'consumable', ...). */
  datatype Item = Item(name: string, effect: Effect, kind: string)

  /** The item the shop sells. */
  const POTION: Item := Item("Healing Potion", HealBy(POTION_HEAL), "consumable")

  /** The keys of a character's equipment dictionary. */
  const SLOTS: set<string> := {"weapon", "armor"}
  const NO_EQUIPMENT: map<string, Option<Item>> := map["weapon" := None, "armor" := None]

  datatype CharacterState = CharacterState(
    name: string,
    cls: CharClass,
    hp: int,
    attack: int,
    magic: int,
    level: int,
    experience: int,
    inventory: seq<Item>,
    alive: bool,
    skills: seq<string>,
    equipment: map<string, Option<Item>>,
    gold: int)

  datatype EnemyState = EnemyState(name: string, hp: int, attack: int, alive: bool)

  /** The two combatants after an exchange that may touch both. */
  datatype Duel = Duel(character: CharacterState, enemy: EnemyState)

  /** Whoever is alive has positive hp.  The source keeps no such flag check, but
      every operation below re-establishes it, except a heal by a negative amount. */
  predicate CharacterConsistent(c: CharacterState) { c.alive ==> c.hp > 0 }

  predicate EnemyConsistent(e: EnemyState) { e.alive ==> e.hp > 0 }

  /** The fields no combat operation touches: identity, belongings and gold. */
  predicate SameBelongings(a: CharacterState, b: CharacterState)
  {
    a.name == b.name && a.cls == b.cls && a.inventory == b.inventory &&
    a.skills == b.skills && a.equipment == b.equipment && a.gold == b.gold
  }

  /** `Character.__init__`: a fresh level-1 character. */
  function NewCharacter(name: string, cls: CharClass): (r: CharacterState)
    ensures r.name == name && r.cls == cls
    ensures r.alive && r.hp == MAX_HP && CharacterConsistent(r)
    ensures r.level == 1 && r.experience == 0
    ensures r.attack == START_ATTACK && r.magic == START_MAGIC && r.gold == START_GOLD
    ensures r.inventory == [] && r.skills == [] && r.equipment.Keys == SLOTS
    ensures forall slot :: slot in r.equipment ==> r.equipment[slot] == None
  {
    CharacterState(name, cls, MAX_HP, START_ATTACK, START_MAGIC, 1, 0, [], true, [],
                   NO_EQUIPMENT, START_GOLD)
  }

  /** The starting character chosen in `main` from the lower-cased class answer;
      anything other than "mage" or "healer" gives a Warrior. */
  function StartingCharacter(name: string, choice: string): (r: CharacterState)
    ensures r.cls == (if choice == "mage" then Mage else if choice == "healer" then Healer
                      else Warrior)
    ensures r.hp == (if r.cls == Healer then MAX_HP + 30 else MAX_HP)
    ensures r.magic == START_MAGIC + (if r.cls == Mage then 10 else if r.cls == Healer then 5
                                      else 0)
    ensures r.hp > MAX_HP <==> r.cls == Healer
    ensures r == NewCharacter(name, r.cls).(hp := r.hp, magic := r.magic)
    ensures CharacterConsistent(r)
  {
    if choice == "warrior" then NewCharacter(name, Warrior)
    else if choice == "mage" then
      var c := NewCharacter(name, Mage);
      c.(magic := c.magic + 10)
    else if choice == "healer" then
      var c := NewCharacter(name, Healer);
      c.(hp := c.hp + 30, magic := c.magic + 5)
    else NewCharacter(name, Warrior)
  }

  /** `Character.take_damage`: hp drops by exactly `damage`, with no clamping at 0;
      the character dies once hp is at most 0 and is never revived. */
  function CharacterTakeDamage(c: CharacterState, damage: int): (r: CharacterState)
    ensures r.hp == c.hp - damage
    ensures r.alive <==> c.alive && r.hp > 0
    ensures !c.alive ==> !r.alive
    ensures r == c.(hp := r.hp, alive := r.alive)
    ensures CharacterConsistent(r)
  {
    var hp := c.hp - damage;
    c.(hp := hp, alive := c.alive && !(hp <= 0))
  }

  /** `Enemy.take_damage`, the same rule for enemies. */
  function EnemyTakeDamage(e: EnemyState, damage: int): (r: EnemyState)
    ensures r.hp == e.hp - damage
    ensures r.alive <==> e.alive && r.hp > 0
    ensures !e.alive ==> !r.alive
    ensures r.name == e.name && r.attack == e.attack
    ensures EnemyConsistent(r)
  {
    var hp := e.hp - damage;
    e.(hp := hp, alive := e.alive && !(hp <= 0))
  }

  /** `Character.heal`: hp becomes the smaller of MAX_HP and hp + amount, so it is at
      most MAX_HP afterwards even when it started above; `alive` is left alone. */
  function Heal(c: CharacterState, amount: int): (r: CharacterState)
    ensures r.hp <= MAX_HP
    ensures c.hp + amount <= MAX_HP ==> r.hp == c.hp + amount
    ensures c.hp + amount > MAX_HP ==> r.hp == MAX_HP
    ensures r == c.(hp := r.hp)
    ensures amount >= 0 && CharacterConsistent(c) ==> CharacterConsistent(r)
  {
    c.(hp := if MAX_HP <= c.hp + amount then MAX_HP else c.hp + amount)
  }

  /** The level-up threshold of `level_up`. */
  predicate ReadyToLevel(c: CharacterState) { c.experience >= c.level * 10 }

  /** `Character.level_up`: one level at most per call, with attack +5, magic +2
      (not capped), hp reset to MAX_HP and experience reset to 0; below the
      threshold nothing changes. */
  function LevelUp(c: CharacterState): (r: CharacterState)
    ensures ReadyToLevel(c) ==>
      r == c.(level := c.level + 1, attack := c.attack + 5, hp := MAX_HP,
              magic := c.magic + 2, experience := 0)
    ensures !ReadyToLevel(c) ==> r == c
    ensures c.level <= r.level <= c.level + 1
    ensures c.level >= 0 ==> !ReadyToLevel(r)
    ensures r.alive == c.alive && SameBelongings(c, r)
    ensures CharacterConsistent(c) ==> CharacterConsistent(r)
  {
    if c.experience >= c.level * 10 then
      c.(level := c.level + 1, attack := c.attack + 5, hp := MAX_HP,
         magic := c.magic + 2, experience := 0)
    else c
  }

  /** `Character.attack_enemy`: the enemy takes a roll in [attack - 2, attack + 2];
      the attacker is not touched (the result is the enemy only). */
  function AttackEnemy(c: CharacterState, e: EnemyState, roll: int): (r: EnemyState)
    requires c.attack - 2 <= roll <= c.attack + 2
    ensures r.hp == e.hp - roll
    ensures e.hp - (c.attack + 2) <= r.hp <= e.hp - (c.attack - 2)
    ensures r == EnemyTakeDamage(e, e.hp - r.hp)
  {
    EnemyTakeDamage(e, roll)
  }

  /** `Enemy.attack_character`: the character takes a roll in
      [attack - 2, attack + 2]; the enemy is not touched. */
  function EnemyAttack(e: EnemyState, c: CharacterState, roll: int): (r: CharacterState)
    requires e.attack - 2 <= roll <= e.attack + 2
    ensures r.hp == c.hp - roll
    ensures c.hp - (e.attack + 2) <= r.hp <= c.hp - (e.attack - 2)
    ensures r == CharacterTakeDamage(c, c.hp - r.hp)
  {
    CharacterTakeDamage(c, roll)
  }

  /** `Character.cast_spell`: with magic at least 3 the enemy loses a roll in
      [10, 20] and magic drops by exactly 3; otherwise nothing changes. */
  function CastSpell(c: CharacterState, e: EnemyState, roll: int): (r: Duel)
    requires c.magic >= SPELL_COST ==> 10 <= roll <= 20
    ensures c.magic >= SPELL_COST ==>
      r.character == c.(magic := c.magic - SPELL_COST) &&
      r.enemy == EnemyTakeDamage(e, roll) && r.enemy.hp == e.hp - roll &&
      e.hp - 20 <= r.enemy.hp <= e.hp - 10
    ensures c.magic < SPELL_COST ==> r == Duel(c, e)
    ensures c.magic >= 0 ==> r.character.magic >= 0
  {
    if c.magic >= SPELL_COST then
      Duel(c.(magic := c.magic - SPELL_COST), EnemyTakeDamage(e, roll))
    else Duel(c, e)
  }

  /** `Character.special_attack`: with magic at least 5 the enemy loses a roll in
      [25, 40] and magic drops by exactly 5; otherwise nothing changes. */
  function SpecialAttack(c: CharacterState, e: EnemyState, roll: int): (r: Duel)
    requires c.magic >= SPECIAL_COST ==> 25 <= roll <= 40
    ensures c.magic >= SPECIAL_COST ==>
      r.character == c.(magic := c.magic - SPECIAL_COST) &&
      r.enemy == EnemyTakeDamage(e, roll) && r.enemy.hp == e.hp - roll &&
      e.hp - 40 <= r.enemy.hp <= e.hp - 25
    ensures c.magic < SPECIAL_COST ==> r == Duel(c, e)
    ensures c.magic >= 0 ==> r.character.magic >= 0
  {
    if c.magic >= SPECIAL_COST then
      Duel(c.(magic := c.magic - SPECIAL_COST), EnemyTakeDamage(e, roll))
    else Duel(c, e)
  }

  /** `Character.equip`: a weapon or an armour goes into the slot of its type;
      an item of any other type leaves the equipment as it was. */
  function Equip(c: CharacterState, item: Item): (r: CharacterState)
    ensures item.kind in SLOTS ==> r.equipment == c.equipment[item.kind := Some(item)]
    ensures item.kind !in SLOTS ==> r == c
    ensures r == c.(equipment := r.equipment)
    ensures c.equipment.Keys == SLOTS ==> r.equipment.Keys == SLOTS
  {
    if item.kind == "weapon" then c.(equipment := c.equipment["weapon" := Some(item)])
    else if item.kind == "armor" then c.(equipment := c.equipment["armor" := Some(item)])
    else c
  }

  /** `Item.use`: applies the item's effect; the item stays in the inventory. */
  function UseItem(item: Item, c: CharacterState): (r: CharacterState)
    ensures r == Heal(c, item.effect.amount)
    ensures r == c.(hp := r.hp)
    ensures r.hp <= MAX_HP
    ensures item.effect.amount >= 0 && c.hp <= MAX_HP ==> r.hp >= c.hp
  {
    match item.effect
    case HealBy(amount) => Heal(c, amount)
  }

  /** `Town.shop`: exactly one potion is appended and exactly 10 gold are taken,
      with no check on the purse. */
  function Shop(c: CharacterState): (r: CharacterState)
    ensures |r.inventory| == |c.inventory| + 1
    ensures r.inventory[..|c.inventory|] == c.inventory
    ensures r.inventory[|c.inventory|] == POTION
    ensures r.gold == c.gold - POTION_PRICE
    ensures r == c.(inventory := r.inventory, gold := r.gold)
  {
    c.(inventory := c.inventory + [POTION], gold := c.gold - POTION_PRICE)
  }

  /** `Town.join_guild`: "Sword Mastery" is appended to the skills, even when
      already there. */
  function JoinGuild(c: CharacterState): (r: CharacterState)
    ensures |r.skills| == |c.skills| + 1
    ensures r.skills[..|c.skills|] == c.skills && r.skills[|c.skills|] == GUILD_SKILL
    ensures r == c.(skills := r.skills)
  {
    c.(skills := c.skills + [GUILD_SKILL])
  }

  /** A single `level_up` call never cascades: even with experience for several
      levels, a second check right after does nothing. */
  lemma LevelUpOnce(c: CharacterState)
    requires c.level >= 0
    ensures LevelUp(LevelUp(c)) == LevelUp(c)
    ensures ReadyToLevel(c) ==> LevelUp(c).level == c.level + 1 && LevelUp(c).experience == 0
  {
  }

  /** Magic is not capped: leveling up at MAX_MAGIC goes past it. */
  lemma LevelUpPassesMaxMagic(c: CharacterState)
    requires ReadyToLevel(c) && c.magic == MAX_MAGIC
    ensures LevelUp(c).magic > MAX_MAGIC
  {
  }

  /** Nor is the level capped: leveling up at MAX_LEVEL goes past it. */
  lemma LevelUpPassesMaxLevel(c: CharacterState)
    requires ReadyToLevel(c) && c.level == MAX_LEVEL
    ensures LevelUp(c).level > MAX_LEVEL
  {
  }

  /** A Healer starts above MAX_HP, and any non-negative heal brings it down to it. */
  lemma HealerHealLowersHp(name: string, amount: int)
    requires amount >= 0
    ensures StartingCharacter(name, "healer").hp == MAX_HP + 30
    ensures Heal(StartingCharacter(name, "healer"), amount).hp == MAX_HP
  {
  }

  /** A dead character can still be healed, and stays dead. */
  lemma HealDoesNotRevive(c: CharacterState, amount: int)
    requires !c.alive
    ensures !Heal(c, amount).alive
    ensures Heal(c, amount).hp == c.hp + amount || Heal(c, amount).hp == MAX_HP
  {
  }

  /** Equipping changes only the slot named by the item's type. */
  lemma EquipTouchesOneSlot(c: CharacterState, item: Item, slot: string)
    requires slot != item.kind
    ensures slot in Equip(c, item).equipment <==> slot in c.equipment
    ensures slot in c.equipment ==> Equip(c, item).equipment[slot] == c.equipment[slot]
  {
  }

  /** The shop's potion restores up to 30 hp, capped at MAX_HP. */
  lemma PotionHeals(c: CharacterState)
    ensures UseItem(POTION, c) == Heal(c, POTION_HEAL)
    ensures c.hp + POTION_HEAL <= MAX_HP ==> UseItem(POTION, c).hp == c.hp + POTION_HEAL
  {
  }
}
