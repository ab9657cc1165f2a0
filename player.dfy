/**
 * The player of the dialogue track: health clamped to `[0, maxHealth]`,
 * score and riddle counters, and a mood-like state that becomes DEFEATED
 * when health first reaches zero.
 *
 * The two notifications other components react to (`healthChanged` and
 * `playerDied`) are returned as a list of `Notice`s in emission order; the
 * receiver reacts to them after the call, which is equivalent because its
 * reactions never touch the player.
 */
module Players {

  datatype PlayerState = Idle | Thinking | Damaged | Celebrating | Defeated

  datatype PlayerData = PlayerData(
    health: int,
    maxHealth: int,
    score: int,
    riddlesSolved: int,
    failedAttempts: int,
    state: PlayerState,
    name: string)

  /** A signal emitted by the player, with its arguments. */
  datatype Notice = HealthChanged(health: int, maxHealth: int) | Died

  const MaxHealth: int := 100

  /** A freshly constructed player: full health, no score, idle. */
  function NewPlayer(): (p: PlayerData)
    ensures p.health == p.maxHealth == MaxHealth
    ensures p.score == p.riddlesSolved == p.failedAttempts == 0
    ensures p.state == Idle && p.name == "Player"
  {
    PlayerData(MaxHealth, MaxHealth, 0, 0, 0, Idle, "Player")
  }

  /** The invariant every operation keeps: health within `[0, maxHealth]`. */
  predicate Valid(p: PlayerData) {
    0 <= p.health <= p.maxHealth
  }

  /** `isAlive`. */
  predicate IsAlive(p: PlayerData) {
    p.health > 0
  }

  /** `std::clamp(v, lo, hi)` for `lo <= hi`. */
  function Clamp(v: int, lo: int, hi: int): (r: int)
    requires lo <= hi
    ensures lo <= r <= hi
    ensures lo <= v <= hi ==> r == v
    ensures v < lo ==> r == lo
    ensures v > hi ==> r == hi
  {
    if v < lo then lo else if v > hi then hi else v
  }

  /** `setHealth`: the new health is clamped; reaching 0 from above defeats the player. */
  function WithHealth(p: PlayerData, h: int): (r: PlayerData)
    requires p.maxHealth >= 0
  {
    var nh := Clamp(h, 0, p.maxHealth);
    if nh != p.health && nh <= 0 && p.health > 0 then p.(health := nh, state := Defeated)
    else p.(health := nh)
  }

  /** The signals `setHealth` emits: a health change if any, then a death if health fell to 0. */
  function WithHealthNotices(p: PlayerData, h: int): seq<Notice>
    requires p.maxHealth >= 0
  {
    var nh := Clamp(h, 0, p.maxHealth);
    if nh == p.health then []
    else [HealthChanged(nh, p.maxHealth)] + (if nh <= 0 && p.health > 0 then [Died] else [])
  }

  /** `takeDamage`: positive damage to a living player marks it DAMAGED and lowers health. */
  function Damage(p: PlayerData, damage: int): (r: PlayerData)
    requires p.maxHealth >= 0
  {
    if damage > 0 && p.health > 0 then WithHealth(p.(state := Damaged), p.health - damage) else p
  }

  function DamageNotices(p: PlayerData, damage: int): seq<Notice>
    requires p.maxHealth >= 0
  {
    if damage > 0 && p.health > 0 then WithHealthNotices(p.(state := Damaged), p.health - damage) else []
  }

  /** `heal`: a positive amount raises a living player's health, up to the maximum. */
  function Healed(p: PlayerData, amount: int): (r: PlayerData)
    requires p.maxHealth >= 0
  {
    if amount > 0 && p.health > 0 then WithHealth(p, p.health + amount) else p
  }

  function HealNotices(p: PlayerData, amount: int): seq<Notice>
    requires p.maxHealth >= 0
  {
    if amount > 0 && p.health > 0 then WithHealthNotices(p, p.health + amount) else []
  }

  /** `reset`: full health, counters cleared, idle; name and maximum are kept. */
  function Restored(p: PlayerData): (r: PlayerData)
    ensures r.health == r.maxHealth == p.maxHealth && r.name == p.name
    ensures r.score == r.riddlesSolved == r.failedAttempts == 0 && r.state == Idle
  {
    p.(health := p.maxHealth, score := 0, riddlesSolved := 0, failedAttempts := 0, state := Idle)
  }

  // ---------------------------------------------------------------------
  // Properties
  // ---------------------------------------------------------------------

  /** Health after `setHealth` is the requested value clamped into `[0, maxHealth]`. */
  lemma SetHealthClamps(p: PlayerData, h: int)
    requires p.maxHealth >= 0
    ensures var r := WithHealth(p, h);
      Valid(r) && (0 <= h <= p.maxHealth ==> r.health == h) &&
      (h < 0 ==> r.health == 0) && (h > p.maxHealth ==> r.health == p.maxHealth)
    ensures WithHealth(p, h).(health := p.health, state := p.state) == p
  {
  }

  /**
   * `setHealth` defeats the player, and announces a death, exactly when
   * health goes from positive to 0; otherwise the state is left as it was.
   * A health change is announced exactly when health changes.
   */
  lemma DefeatOnlyOnTransition(p: PlayerData, h: int)
    requires p.maxHealth >= 0
    ensures var r, n := WithHealth(p, h), WithHealthNotices(p, h);
      (Died in n <==> p.health > 0 && r.health == 0) &&
      (r.state == (if p.health > 0 && r.health == 0 then Defeated else p.state)) &&
      (n != [] <==> r.health != p.health) &&
      (n != [] ==> n[0] == HealthChanged(r.health, r.maxHealth))
  {
  }

  /**
   * `takeDamage` changes nothing for non-positive damage or a player already
   * at 0; otherwise health drops by the damage (not below 0) and the state is
   * DAMAGED, or DEFEATED when health reached 0.
   */
  lemma TakeDamageEffect(p: PlayerData, damage: int)
    requires Valid(p)
    ensures var r := Damage(p, damage);
      if damage <= 0 || p.health == 0 then r == p && DamageNotices(p, damage) == []
      else
        r.health == (if p.health - damage < 0 then 0 else p.health - damage) &&
        r.state == (if r.health == 0 then Defeated else Damaged) &&
        r.(health := p.health, state := p.state) == p
  {
  }

  /**
   * `heal` changes nothing for a non-positive amount or a player at 0 health;
   * otherwise health rises by the amount, capped at the maximum, and the
   * state is kept.
   */
  lemma HealEffect(p: PlayerData, amount: int)
    requires Valid(p)
    ensures var r := Healed(p, amount);
      if amount <= 0 || p.health == 0 then r == p && HealNotices(p, amount) == []
      else
        r.health == (if p.health + amount > p.maxHealth then p.maxHealth else p.health + amount) &&
        r.(health := p.health) == p && Died !in HealNotices(p, amount)
  {
  }

  /** A defeated player (health 0) is not brought back by damage or healing. */
  lemma DeadStaysDead(p: PlayerData, damage: int, amount: int)
    requires Valid(p) && !IsAlive(p)
    ensures Damage(p, damage) == p && Healed(p, amount) == p
  {
  }

  /** Every health operation keeps health within `[0, maxHealth]`. */
  lemma HealthOperationsKeepValid(p: PlayerData, h: int, amount: int)
    requires Valid(p)
    ensures Valid(WithHealth(p, h)) && Valid(Damage(p, amount)) && Valid(Healed(p, amount)) && Valid(Restored(p))
  {
  }

  /** Damage that leaves health positive never kills; damage of at least the health always does. */
  lemma DamageKillsIffEnough(p: PlayerData, damage: int)
    requires Valid(p) && IsAlive(p) && damage > 0
    ensures !IsAlive(Damage(p, damage)) <==> damage >= p.health
    ensures Died in DamageNotices(p, damage) <==> damage >= p.health
  {
  }

  /** `Player`: the same state updated in place. */
  class Player {
    var health: int
    var maxHealth: int
    var score: int
    var riddlesSolved: int
    var failedAttempts: int
    var state: PlayerState
    var name: string

    function Data(): PlayerData
      reads this
    {
      PlayerData(health, maxHealth, score, riddlesSolved, failedAttempts, state, name)
    }

    /** The maximum never changes, so health stays within it. */
    predicate Inv()
      reads this
    {
      maxHealth == MaxHealth && Valid(Data())
    }

    constructor()
      ensures Data() == NewPlayer() && Inv()
    {
      health, maxHealth := MaxHealth, MaxHealth;
      score, riddlesSolved, failedAttempts := 0, 0, 0;
      state := Idle;
      name := "Player";
    }

    method SetHealth(h: int) returns (notices: seq<Notice>)
      requires Inv()
      modifies this
      ensures Inv()
      ensures Data() == WithHealth(old(Data()), h)
      ensures notices == WithHealthNotices(old(Data()), h)
    {
      var oldHealth := health;
      health := Clamp(h, 0, maxHealth);
      notices := [];
      if health != oldHealth {
        notices := [HealthChanged(health, maxHealth)];
        if health <= 0 && oldHealth > 0 {
          var _ := SetState(Defeated);
          notices := notices + [Died];
        }
      }
    }

    method TakeDamage(damage: int) returns (notices: seq<Notice>)
      requires Inv()
      modifies this
      ensures Inv()
      ensures Data() == Damage(old(Data()), damage)
      ensures notices == DamageNotices(old(Data()), damage)
    {
      notices := [];
      if damage > 0 && health > 0 {
        var _ := SetState(Damaged);
        notices := SetHealth(health - damage);
      }
    }

    method Heal(amount: int) returns (notices: seq<Notice>)
      requires Inv()
      modifies this
      ensures Inv()
      ensures Data() == Healed(old(Data()), amount)
      ensures notices == HealNotices(old(Data()), amount)
    {
      notices := [];
      if amount > 0 && health > 0 {
        notices := SetHealth(health + amount);
      }
    }

    /** `setState`: the state changes (and is announced) only when it differs. */
    method SetState(s: PlayerState) returns (changed: bool)
      modifies this
      ensures changed <==> old(state) != s
      ensures Data() == old(Data()).(state := s)
    {
      changed := state != s;
      if changed {
        state := s;
      }
    }

    method AddScore(points: int)
      modifies this
      ensures Data() == old(Data()).(score := old(score) + points)
    {
      score := score + points;
    }

    method IncrementRiddlesSolved()
      modifies this
      ensures Data() == old(Data()).(riddlesSolved := old(riddlesSolved) + 1)
    {
      riddlesSolved := riddlesSolved + 1;
    }

    method IncrementFailedAttempts()
      modifies this
      ensures Data() == old(Data()).(failedAttempts := old(failedAttempts) + 1)
    {
      failedAttempts := failedAttempts + 1;
    }

    /** `reset` always announces the (full) health. */
    method Reset() returns (notices: seq<Notice>)
      requires Inv()
      modifies this
      ensures Inv()
      ensures Data() == Restored(old(Data()))
      ensures notices == [HealthChanged(maxHealth, maxHealth)]
    {
      health := maxHealth;
      score, riddlesSolved, failedAttempts := 0, 0, 0;
      state := Idle;
      notices := [HealthChanged(health, maxHealth)];
    }
  }
}
