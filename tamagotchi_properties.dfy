/** Properties of the turn engine that relate several operations or several turns. */
module TamagotchiProperties {
  import opened Tamagotchi

  /** Clamping an already clamped value changes nothing. */
  lemma ClampIdempotent(x: int, lo: int, hi: int)
    ensures Clamp(Clamp(x, lo, hi), lo, hi) == Clamp(x, lo, hi)
  {
  }

  /** Feeding a pet stops the starvation drain: after a feed the drain check changes nothing. */
  lemma FeedStopsDrain(p: PetState)
    requires p.hunger >= 0
    ensures Drained(Fed(p)) == Fed(p)
  {
  }

  /** The sleep cycle on its own: still asleep after two sleep turns, awake with the counter
      at 0 after the third, energy restored by 25 a turn up to 100. */
  lemma SleepCycle(p: PetState)
    requires InRange(p.energy)
    ensures var s1 := SleptTurn(SleepStarted(p));
            var s2 := SleptTurn(s1);
            var s3 := SleptTurn(s2);
            && s1.sleeping && s1.sleepTurnsRemaining == 2
            && s2.sleeping && s2.sleepTurnsRemaining == 1
            && !s3.sleeping && s3.sleepTurnsRemaining == 0
            && s3.energy == Min(p.energy + 75, 100)
  {
  }

  /** While the pet sleeps the chosen action plays no part in the turn. */
  lemma ActionIgnoredWhileAsleep(p: PetState, a: Action, b: Action)
    requires p.sleeping
    ensures Resolved(p, a) == Resolved(p, b)
  {
  }

  /** The sleep cycle inside the game loop: the turn the pet is put to sleep leaves it asleep
      with 3 turns to go, it is still asleep after two more turns and awake after the third,
      whatever actions are chosen meanwhile. The game makes these turns only while the pet
      survives them (a pet that dies asleep ends the game asleep); the lemma holds either way. */
  lemma SleepCycleInTurns(p: PetState, a1: Action, a2: Action, a3: Action)
    requires Valid(p) && !p.sleeping
    ensures var q0 := Resolved(p, Sleep);
            var q1 := Resolved(q0, a1);
            var q2 := Resolved(q1, a2);
            var q3 := Resolved(q2, a3);
            && q0.sleeping && q0.sleepTurnsRemaining == 3
            && q1.sleeping && q2.sleeping && !q3.sleeping && q3.sleepTurnsRemaining == 0
  {
  }

  /** Death is permanent: no turn brings a dead pet back or advances its turn counter. */
  lemma DeathIsFinal(p: PetState, a: Action)
    requires !p.alive
    ensures !Resolved(p, a).alive && Resolved(p, a).turn == p.turn
  {
  }

  /** Every state a session ends in satisfies the invariant, given a valid start. */
  lemma {:induction false} SessionValid(p: PetState, inputs: seq<Action>)
    requires Valid(p)
    ensures Valid(Session(p, inputs))
    decreases |inputs|, SleepMeasure(p)
  {
    if !p.alive {
    } else if p.sleeping {
      SessionValid(Resolved(p, Check), inputs);
    } else if inputs == [] || inputs[0] == Quit {
    } else {
      SessionValid(Resolved(p, inputs[0]), inputs[1..]);
    }
  }

  /** A session never ends with a living pet asleep: a sleep cycle always runs to its end,
      since the player is asked for input (and can quit) only while the pet is awake. */
  lemma {:induction false} SessionEndsAwakeOrDead(p: PetState, inputs: seq<Action>)
    ensures Session(p, inputs).alive ==> !Session(p, inputs).sleeping
    decreases |inputs|, SleepMeasure(p)
  {
    if !p.alive {
    } else if p.sleeping {
      SessionEndsAwakeOrDead(Resolved(p, Check), inputs);
    } else if inputs == [] || inputs[0] == Quit {
    } else {
      SessionEndsAwakeOrDead(Resolved(p, inputs[0]), inputs[1..]);
    }
  }

  /** The turn counter never goes down over a session, and a dead pet's session is empty. */
  lemma {:induction false} SessionTurnMonotone(p: PetState, inputs: seq<Action>)
    ensures Session(p, inputs).turn >= p.turn
    ensures !p.alive ==> Session(p, inputs) == p
    decreases |inputs|, SleepMeasure(p)
  {
    if !p.alive {
    } else if p.sleeping {
      SessionTurnMonotone(Resolved(p, Check), inputs);
    } else if inputs == [] || inputs[0] == Quit {
    } else {
      SessionTurnMonotone(Resolved(p, inputs[0]), inputs[1..]);
    }
  }

  /** A session that only saves ends where it began: saving resolves no turn. */
  lemma {:induction false} SavingChangesNothing(p: PetState, n: nat)
    requires !p.sleeping
    ensures Session(p, seq(n, _ => Save)) == p
  {
    if n > 0 && p.alive {
      assert seq(n, _ => Save)[1..] == seq(n - 1, _ => Save);
      SavingChangesNothing(p, n - 1);
    }
  }

  // ---------------------------------------------------------------------------
  // Worked examples
  // ---------------------------------------------------------------------------

  /** Mood at the documented boundaries. */
  lemma MoodExamples(p: PetState)
    ensures GetMood(p.(hunger := 50, happiness := 50, energy := 30, sleeping := false)) == Happy
    ensures GetMood(p.(hunger := 24, happiness := 100, energy := 100, sleeping := false)) == Sad
    ensures GetMood(p.(hunger := 25, happiness := 50, energy := 30, sleeping := false)) == Neutral
    ensures GetMood(p.(hunger := 40, happiness := 40, energy := 25, sleeping := false)) == Neutral
    ensures GetMood(p.(hunger := 0, happiness := 0, energy := 0, sleeping := true)) == Sleeping
  {
  }

  /** Three decays from a fresh pet: hunger 65, energy 68, happiness 74, health untouched. */
  lemma ThreeDecaysFromFresh(name: string)
    ensures var q := Decayed(Decayed(Decayed(Initial(name))));
            q.hunger == 65 && q.energy == 68 && q.happiness == 74 && q.health == 100
  {
  }

  /** A fed fresh pet after one turn: hunger capped at 100 by the feed and then decayed to 95,
      happiness 78, energy 76, health 100, turn 2. */
  lemma FeedTurnFromFresh(name: string)
    ensures Resolved(Initial(name), Feed)
      == PetState(name, 95, 78, 76, 100, 2, true, false, 0)
  {
  }

  /** A starving pet at 10 health dies on the next turn, and its turn counter stays put. */
  lemma StarvingPetDies(p: PetState)
    requires Valid(p) && !p.sleeping && p.hunger == 0 && p.health == 10
    ensures var q := Resolved(p, Check);
            q.health == 0 && !q.alive && q.turn == p.turn
  {
  }
}
