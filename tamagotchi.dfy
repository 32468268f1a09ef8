/** A terminal virtual pet: the turn-resolution state machine.
    The pet is a record of nine fields that the game updates in place once per turn;
    stats are integers kept in [0, 100] by clamping, a sleep cycle lasts three turns
    and death (health at or below zero) ends the game. */
module Tamagotchi {

  // ---------------------------------------------------------------------------
  // Utilities
  // ---------------------------------------------------------------------------

  function Min(a: int, b: int): int { if a <= b then a else b }
  function Max(a: int, b: int): int { if a >= b then a else b }

  /** `max(lo, min(hi, value))`: value clamped to [lo, hi]; when lo > hi, lo wins. */
  function Clamp(value: int, lo: int, hi: int): (r: int)
    ensures lo <= hi ==> lo <= r <= hi
    ensures lo <= value <= hi ==> r == value
    ensures value < lo ==> r == lo
    ensures lo <= hi < value ==> r == hi
    ensures hi < lo ==> r == lo
  {
    Max(lo, Min(hi, value))
  }

  predicate InRange(x: int) { 0 <= x <= 100 }

  // ---------------------------------------------------------------------------
  // The pet record
  // ---------------------------------------------------------------------------

  /** A snapshot of the nine fields of the pet. */
  datatype PetState = PetState(
    name: string,
    hunger: int,
    happiness: int,
    energy: int,
    health: int,
    turn: int,
    alive: bool,
    sleeping: bool,
    sleepTurnsRemaining: int)

  /** All four stats lie in [0, 100]. */
  predicate StatsInRange(p: PetState) {
    InRange(p.hunger) && InRange(p.happiness) && InRange(p.energy) && InRange(p.health)
  }

  /** The invariant every turn boundary keeps: the four stats lie in [0, 100], turns count
      from 1, the sleep counter lies in [0, 3] and is positive exactly while the pet sleeps,
      and the pet is alive exactly while its health is positive. */
  predicate Valid(p: PetState) {
    && StatsInRange(p)
    && p.turn >= 1
    && 0 <= p.sleepTurnsRemaining <= 3
    && (p.sleeping <==> p.sleepTurnsRemaining > 0)
    && (p.alive <==> p.health > 0)
  }

  /** A new pet: stats 80/80/80, full health, turn 1, alive and awake. */
  function Initial(name: string): (r: PetState)
    ensures Valid(r) && r.name == name && r.alive && !r.sleeping
    ensures r.hunger == 80 && r.happiness == 80 && r.energy == 80 && r.health == 100 && r.turn == 1
  {
    PetState(name, 80, 80, 80, 100, 1, true, false, 0)
  }

  /** The stats the DECAY table indexes (keys of the pet dict). */
  datatype Stat = Hunger | Happiness | Energy | Health

  function StatOf(p: PetState, s: Stat): int {
    match s
    case Hunger => p.hunger
    case Happiness => p.happiness
    case Energy => p.energy
    case Health => p.health
  }

  /** `pet[s] = v`: only stat s changes. */
  function WithStat(p: PetState, s: Stat, v: int): (r: PetState)
    ensures StatOf(r, s) == v
    ensures forall t :: t != s ==> StatOf(r, t) == StatOf(p, t)
    ensures r.name == p.name && r.turn == p.turn && r.alive == p.alive
    ensures r.sleeping == p.sleeping && r.sleepTurnsRemaining == p.sleepTurnsRemaining
  {
    match s
    case Hunger => p.(hunger := v)
    case Happiness => p.(happiness := v)
    case Energy => p.(energy := v)
    case Health => p.(health := v)
  }

  // ---------------------------------------------------------------------------
  // Stat logic
  // ---------------------------------------------------------------------------

  /** Per-turn decay amounts, in the order the table lists them. */
  const DECAY: seq<(Stat, int)> := [(Hunger, 5), (Energy, 4), (Happiness, 2)]

  /** Whether a decay table has an entry for stat s. */
  predicate Lists(table: seq<(Stat, int)>, s: Stat)
    decreases |table|
  {
    table != [] && (table[0].0 == s || Lists(table[1..], s))
  }

  /** Applies the entries of a decay table in order: each listed stat loses its amount,
      clamped to [0, 100]. Health is untouched unless the table lists it, stats in range stay
      in range, and nothing but the four stats changes. */
  function DecayBy(p: PetState, table: seq<(Stat, int)>): (r: PetState)
    ensures !Lists(table, Health) ==> r.health == p.health
    ensures StatsInRange(p) ==> StatsInRange(r)
    ensures r.name == p.name && r.turn == p.turn && r.alive == p.alive
    ensures r.sleeping == p.sleeping && r.sleepTurnsRemaining == p.sleepTurnsRemaining
    decreases |table|
  {
    if table == [] then p
    else
      var (stat, amount) := table[0];
      DecayBy(WithStat(p, stat, Clamp(StatOf(p, stat) - amount, 0, 100)), table[1..])
  }

  /** Unfolds entry i of the DECAY table. */
  lemma DecayStep(p: PetState, i: nat)
    requires i < |DECAY|
    ensures DecayBy(p, DECAY[i..])
      == DecayBy(WithStat(p, DECAY[i].0, Clamp(StatOf(p, DECAY[i].0) - DECAY[i].1, 0, 100)), DECAY[i + 1..])
  {
    assert DECAY[i..][1..] == DECAY[i + 1..];
  }

  /** Walking the DECAY table comes to three clamped subtractions. */
  lemma DecayTableClosedForm(p: PetState)
    ensures DecayBy(p, DECAY) == p.(hunger := Clamp(p.hunger - 5, 0, 100),
                                    energy := Clamp(p.energy - 4, 0, 100),
                                    happiness := Clamp(p.happiness - 2, 0, 100))
  {
    var p1 := WithStat(p, Hunger, Clamp(p.hunger - 5, 0, 100));
    var p2 := WithStat(p1, Energy, Clamp(p1.energy - 4, 0, 100));
    var p3 := WithStat(p2, Happiness, Clamp(p2.happiness - 2, 0, 100));
    assert DECAY[1..][1..][1..] == [];
    assert DecayBy(p2, DECAY[1..][1..]) == DecayBy(p3, []);
  }

  /** Per-turn decay: hunger -5, energy -4, happiness -2, each clamped; nothing else moves. */
  function Decayed(p: PetState): (r: PetState)
    ensures r.hunger == Clamp(p.hunger - 5, 0, 100)
    ensures r.energy == Clamp(p.energy - 4, 0, 100)
    ensures r.happiness == Clamp(p.happiness - 2, 0, 100)
    ensures r == p.(hunger := r.hunger, energy := r.energy, happiness := r.happiness)
    ensures InRange(p.hunger) ==> r.hunger <= p.hunger
  {
    DecayTableClosedForm(p);
    DecayBy(p, DECAY)
  }

  /** Starvation: with hunger exactly 0, health drops by 10 (floored at 0); otherwise no change. */
  function Drained(p: PetState): (r: PetState)
    ensures r == p.(health := r.health)
    ensures p.hunger != 0 ==> r == p
    ensures p.hunger == 0 && InRange(p.health) ==> r.health == Max(p.health - 10, 0)
    ensures InRange(p.health) ==> InRange(r.health) && r.health <= p.health
  {
    if p.hunger == 0 then p.(health := Clamp(p.health - 10, 0, 100)) else p
  }

  /** Death detection: health at or below 0 marks the pet dead; it never revives one. */
  function DeathChecked(p: PetState): (r: PetState)
    ensures r == p.(alive := r.alive)
    ensures r.alive <==> p.alive && p.health > 0
  {
    if p.health <= 0 then p.(alive := false) else p
  }

  // ---------------------------------------------------------------------------
  // Actions
  // ---------------------------------------------------------------------------

  /** Feeding: hunger +30, capped at 100; nothing else changes. */
  function Fed(p: PetState): (r: PetState)
    ensures r == p.(hunger := r.hunger)
    ensures InRange(r.hunger)
    ensures InRange(p.hunger) ==> r.hunger == Min(p.hunger + 30, 100)
    ensures p.hunger >= 0 ==> r.hunger > 0
  {
    p.(hunger := Clamp(p.hunger + 30, 0, 100))
  }

  /** Playing: happiness +20 and energy -15, both clamped; nothing else changes. */
  function Played(p: PetState): (r: PetState)
    ensures r == p.(happiness := r.happiness, energy := r.energy)
    ensures InRange(r.happiness) && InRange(r.energy)
    ensures InRange(p.happiness) ==> r.happiness == Min(p.happiness + 20, 100)
    ensures InRange(p.energy) ==> r.energy == Max(p.energy - 15, 0)
  {
    p.(happiness := Clamp(p.happiness + 20, 0, 100), energy := Clamp(p.energy - 15, 0, 100))
  }

  /** Going to sleep: a three-turn sleep cycle begins, unconditionally. */
  function SleepStarted(p: PetState): (r: PetState)
    ensures r == p.(sleeping := r.sleeping, sleepTurnsRemaining := r.sleepTurnsRemaining)
    ensures r.sleeping && r.sleepTurnsRemaining == 3
  {
    p.(sleeping := true, sleepTurnsRemaining := 3)
  }

  /** One sleep turn: energy +25 (capped) and the counter counts down; when it reaches 0
      the pet wakes and the counter is floored at 0. */
  function SleptTurn(p: PetState): (r: PetState)
    ensures r == p.(energy := r.energy, sleeping := r.sleeping, sleepTurnsRemaining := r.sleepTurnsRemaining)
    ensures InRange(r.energy)
    ensures InRange(p.energy) ==> r.energy == Min(p.energy + 25, 100)
    ensures r.sleepTurnsRemaining == Max(p.sleepTurnsRemaining - 1, 0)
    ensures r.sleeping <==> p.sleeping && p.sleepTurnsRemaining > 1
  {
    var energy := Clamp(p.energy + 25, 0, 100);
    var remaining := p.sleepTurnsRemaining - 1;
    if remaining <= 0 then p.(energy := energy, sleeping := false, sleepTurnsRemaining := 0)
    else p.(energy := energy, sleepTurnsRemaining := remaining)
  }

  // ---------------------------------------------------------------------------
  // Mood
  // ---------------------------------------------------------------------------

  datatype Mood = Happy | Neutral | Sad | Sleeping

  /** Mood, derived fresh from the state: sleeping overrides everything, then the happy
      thresholds, then the sad thresholds, else neutral. Because "happy" and "sad" cannot both
      hold of the stats, the order of the two stat rules does not matter. */
  function GetMood(p: PetState): (r: Mood)
    ensures r == Sleeping <==> p.sleeping
    ensures r == Happy <==> !p.sleeping && p.hunger >= 50 && p.happiness >= 50 && p.energy >= 30
    ensures r == Sad <==> !p.sleeping && (p.hunger < 25 || p.happiness < 25 || p.energy < 20)
    ensures r == Neutral <==>
      && !p.sleeping && p.hunger >= 25 && p.happiness >= 25 && p.energy >= 20
      && (p.hunger < 50 || p.happiness < 50 || p.energy < 30)
  {
    if p.sleeping then Sleeping
    else if p.hunger >= 50 && p.happiness >= 50 && p.energy >= 30 then Happy
    else if p.hunger < 25 || p.happiness < 25 || p.energy < 20 then Sad
    else Neutral
  }

  // ---------------------------------------------------------------------------
  // Turn resolution
  // ---------------------------------------------------------------------------

  /** The choices the player is offered while the pet is awake. */
  datatype Action = Feed | Play | Sleep | Check | Save | Quit

  /** The stat change of an action; "check" changes nothing. Save and Quit never reach it.
      Only the three non-health stats and the sleep fields can change, and stats stay in range. */
  function Acted(p: PetState, a: Action): (r: PetState)
    ensures r == p.(hunger := r.hunger, happiness := r.happiness, energy := r.energy,
                    sleeping := r.sleeping, sleepTurnsRemaining := r.sleepTurnsRemaining)
    ensures a == Check || a == Save || a == Quit ==> r == p
    ensures a == Feed ==> r == p.(hunger := r.hunger) && InRange(r.hunger)
    ensures a == Feed && InRange(p.hunger) ==> r.hunger == Min(p.hunger + 30, 100)
    ensures a == Play ==> r == p.(happiness := r.happiness, energy := r.energy)
    ensures a == Play && InRange(p.happiness) ==> r.happiness == Min(p.happiness + 20, 100)
    ensures a == Play && InRange(p.energy) ==> r.energy == Max(p.energy - 15, 0)
    ensures a == Sleep ==> r == p.(sleeping := true, sleepTurnsRemaining := 3)
    ensures a != Sleep ==> r.sleeping == p.sleeping && r.sleepTurnsRemaining == p.sleepTurnsRemaining
    ensures InRange(p.hunger) && InRange(p.happiness) && InRange(p.energy) ==>
      InRange(r.hunger) && InRange(r.happiness) && InRange(r.energy)
  {
    match a
    case Feed => Fed(p)
    case Play => Played(p)
    case Sleep => SleepStarted(p)
    case _ => p
  }

  /** The common tail of a resolved turn: decay, starvation drain, death check, and the turn
      counter advances only if the pet survived. */
  function FinishedTurn(p: PetState): (r: PetState)
    ensures r.alive ==> p.alive
    ensures r.turn == if r.alive then p.turn + 1 else p.turn
    ensures r.name == p.name && r.sleeping == p.sleeping && r.sleepTurnsRemaining == p.sleepTurnsRemaining
    ensures InRange(r.hunger) && InRange(r.happiness) && InRange(r.energy)
    ensures InRange(p.health) ==> InRange(r.health) && (r.alive <==> p.alive && r.health > 0)
  {
    var q := DeathChecked(Drained(Decayed(p)));
    if q.alive then q.(turn := q.turn + 1) else q
  }

  /** One pass of the game loop. A sleeping pet takes a sleep turn and no action is read;
      an awake pet performs the action, except that Save (and Quit, which ends the session)
      resolves no turn at all. */
  function Resolved(p: PetState, a: Action): (r: PetState)
    ensures Valid(p) ==> Valid(r)
    ensures !p.sleeping && (a == Save || a == Quit) ==> r == p
    ensures p.sleeping || (a != Save && a != Quit) ==>
      r.turn == if r.alive then p.turn + 1 else p.turn
    ensures r.alive ==> p.alive
    ensures r.name == p.name
  {
    if p.sleeping then FinishedTurn(SleptTurn(p))
    else if a == Save || a == Quit then p
    else FinishedTurn(Acted(p, a))
  }

  /** Decreases on every sleep turn. */
  function SleepMeasure(p: PetState): nat {
    if p.sleeping then 1 + Max(p.sleepTurnsRemaining, 0) else 0
  }

  /** The game loop `while alive` on a sequence of player inputs: sleeping turns read no input,
      an exhausted input reads as Quit (end of input quits), Quit ends the session, and death
      ends the loop. The result is the state the session ends in: the same pet, never revived
      once dead. */
  function Session(p: PetState, inputs: seq<Action>): (r: PetState)
    ensures r.name == p.name
    ensures r.alive ==> p.alive
    decreases |inputs|, SleepMeasure(p)
  {
    if !p.alive then p
    else if p.sleeping then Session(Resolved(p, Check), inputs)
    else if inputs == [] || inputs[0] == Quit then p
    else Session(Resolved(p, inputs[0]), inputs[1..])
  }

  // ---------------------------------------------------------------------------
  // The pet object, updated in place
  // ---------------------------------------------------------------------------

  class Pet {
    var name: string
    var hunger: int
    var happiness: int
    var energy: int
    var health: int
    var turn: int
    var alive: bool
    var sleeping: bool
    var sleepTurnsRemaining: int

    /** The record as a value (what a save file would hold). */
    function State(): PetState
      reads this
    {
      PetState(name, hunger, happiness, energy, health, turn, alive, sleeping, sleepTurnsRemaining)
    }

    constructor (name: string)
      ensures State() == Initial(name)
    {
      this.name := name;
      hunger, happiness, energy, health := 80, 80, 80, 100;
      turn, alive, sleeping, sleepTurnsRemaining := 1, true, false, 0;
    }

    /** `pet[s] = v` */
    method SetStat(s: Stat, v: int)
      modifies this
      ensures State() == WithStat(old(State()), s, v)
    {
      match s
      case Hunger => hunger := v;
      case Happiness => happiness := v;
      case Energy => energy := v;
      case Health => health := v;
    }

    /** Walks the DECAY table and overwrites each listed stat with its decayed value. */
    method DecayStats()
      modifies this
      ensures State() == Decayed(old(State()))
    {
      for i := 0 to |DECAY|
        invariant DecayBy(State(), DECAY[i..]) == Decayed(old(State()))
      {
        var (stat, amount) := DECAY[i];
        ghost var before := State();
        SetStat(stat, Clamp(StatOf(State(), stat) - amount, 0, 100));
        DecayStep(before, i);
      }
      assert DECAY[|DECAY|..] == [];
    }

    method CheckHealthDrain()
      modifies this
      ensures State() == Drained(old(State()))
    {
      if hunger == 0 {
        health := Clamp(health - 10, 0, 100);
      }
    }

    method CheckDeath()
      modifies this
      ensures State() == DeathChecked(old(State()))
    {
      if health <= 0 {
        alive := false;
      }
    }

    method ApplyFeed()
      modifies this
      ensures State() == Fed(old(State()))
    {
      hunger := Clamp(hunger + 30, 0, 100);
    }

    method ApplyPlay()
      modifies this
      ensures State() == Played(old(State()))
    {
      happiness := Clamp(happiness + 20, 0, 100);
      energy := Clamp(energy - 15, 0, 100);
    }

    method StartSleep()
      modifies this
      ensures State() == SleepStarted(old(State()))
    {
      sleeping := true;
      sleepTurnsRemaining := 3;
    }

    method ProcessSleepTurn()
      modifies this
      ensures State() == SleptTurn(old(State()))
    {
      energy := Clamp(energy + 25, 0, 100);
      sleepTurnsRemaining := sleepTurnsRemaining - 1;
      if sleepTurnsRemaining <= 0 {
        sleeping := false;
        sleepTurnsRemaining := 0;
      }
    }

    /** Decay, drain, death check, and the turn advances only if the pet is still alive. */
    method FinishTurn()
      modifies this
      ensures State() == FinishedTurn(old(State()))
    {
      DecayStats();
      CheckHealthDrain();
      CheckDeath();
      if alive {
        turn := turn + 1;
      }
    }

    /** One pass of the game loop's body with its input/output removed. */
    method ResolveTurn(action: Action)
      modifies this
      ensures State() == Resolved(old(State()), action)
      ensures old(Valid(State())) ==> Valid(State())
    {
      if sleeping {
        ProcessSleepTurn();
        FinishTurn();
        return;
      }
      match action {
        case Feed => ApplyFeed();
        case Play => ApplyPlay();
        case Sleep => StartSleep();
        case Check =>
        case Save => return;  // saving resolves no turn: no decay, no turn increment
        case Quit => return;  // the session ends without further change
      }
      FinishTurn();
    }
  }

  /** The game from a fresh pet: loop while the pet is alive, reading one input per awake turn
      (none while it sleeps), until it dies or the player quits. Returns the final record. */
  method RunGame(name: string, inputs: seq<Action>) returns (final: PetState)
    ensures final == Session(Initial(name), inputs)
  {
    var pet := new Pet(name);
    var i := 0;
    while pet.alive
      invariant 0 <= i <= |inputs|
      invariant Session(pet.State(), inputs[i..]) == Session(Initial(name), inputs)
      decreases |inputs| - i, SleepMeasure(pet.State())
    {
      var action := Check;  // no input is read while the pet sleeps
      if !pet.sleeping {
        if i == |inputs| || inputs[i] == Quit {
          break;
        }
        action := inputs[i];
        assert inputs[i..][1..] == inputs[i + 1..];
        i := i + 1;
      }
      pet.ResolveTurn(action);
    }
    final := pet.State();
  }
}
