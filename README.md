# Tamagotchi turn engine, in Dafny

A model of the turn-resolution state machine of a terminal virtual pet. The pet is a record
of nine fields: name, hunger, happiness, energy, health, turn, alive, sleeping and the sleep
counter. The game loop updates it in place once per turn. The four stats are integers clamped
to [0, 100]. Each turn, hunger decays by 5, energy by 4 and happiness by 2. A pet whose hunger
is exactly 0 loses 10 health per turn. When health reaches 0 or less, the pet dies, and death
ends the game. The player's actions are feed (+30 hunger), play (+20 happiness, −15 energy),
sleep (a three-turn cycle that restores 25 energy per turn and reads no input), check (no
change), save (no turn is resolved) and quit. The mood (sleeping, happy, sad or neutral) is
derived from the state each time it is needed. The source returns the mood as a string; the model uses a four-value datatype instead.

Layout:

- `tamagotchi.dfy`, module `Tamagotchi`: the source file's core.
  - `Clamp`.
  - `PetState`, a value snapshot of the record, with its invariant `Valid`.
  - One pure function per state change: `Decayed`, `Drained`, `DeathChecked`, `Fed`, `Played`,
    `SleepStarted`, `SleptTurn`, `FinishedTurn`, `Resolved`.
  - `GetMood`.
  - `Session`, the game loop over a sequence of inputs.
  - The class `Pet`. Its fields are the nine record fields. Each method updates them in place
    as the source does, and its contract is `State() == F(old(State()))` for the matching
    pure function.
  - `RunGame`, the `while alive` loop, proved equal to `Session`.
  - `decay_stats` walks the `DECAY` table in the source. The model does the same: `DECAY` is a
    constant table, and `Pet.DecayStats` loops over it.
- `tamagotchi_properties.dfy`, module `TamagotchiProperties`: lemmas that relate several
  operations or turns, and worked examples: the mood boundaries from the unit tests, and three
  decays, a fed turn and a starving turn computed from the code.

Feeding a fresh pet and resolving the turn ends with hunger 95: the feed caps hunger at 100
and the turn's decay follows (`FeedTurnFromFresh`).

## Model

| member | source | states |
|---|---|---|
| `Tamagotchi.Clamp` | Tamagotchi/tamagotchi.py:45-47 | the result lies in [lo, hi] when lo ≤ hi; a value already in range is returned unchanged; below lo gives lo, above hi gives hi; when lo > hi, lo wins (Python `max(lo, min(hi, v))`) |
| `Tamagotchi.Initial` | Tamagotchi/tamagotchi.py:55-67 | a new pet has the given name, stats 80/80/80, health 100, turn 1, and is alive and awake; it satisfies the invariant |
| `Tamagotchi.WithStat` | Tamagotchi/tamagotchi.py:78 | writing `pet[stat] = v` sets that stat to v and leaves every other stat and field unchanged |
| `Tamagotchi.DecayBy` | Tamagotchi/tamagotchi.py:77-78 | walking a decay table entry by entry keeps stats in [0, 100] when they start there, leaves health alone unless the table lists it, and changes nothing but the four stats |
| `Tamagotchi.DecayTableClosedForm` | Tamagotchi/tamagotchi.py:19-23 | walking the DECAY table (hunger 5, energy 4, happiness 2) equals the three clamped subtractions at once |
| `Tamagotchi.Decayed` | Tamagotchi/tamagotchi.py:75-78 | walking the DECAY table sets hunger, energy and happiness to clamp(x−5), clamp(x−4) and clamp(x−2); health and every other field are unchanged |
| `Tamagotchi.Drained` | Tamagotchi/tamagotchi.py:81-84 | only health can change, and only when hunger is exactly 0; then it drops by 10, floored at 0; for any other hunger the state is unchanged |
| `Tamagotchi.DeathChecked` | Tamagotchi/tamagotchi.py:87-90 | alive afterwards iff alive before and health > 0, so the check never revives a pet; nothing else changes |
| `Tamagotchi.Fed` | Tamagotchi/tamagotchi.py:98-100 | only hunger changes, to min(hunger+30, 100); a fed pet's hunger is positive |
| `Tamagotchi.Played` | Tamagotchi/tamagotchi.py:103-106 | only happiness (min(+20, 100)) and energy (max(−15, 0)) change |
| `Tamagotchi.SleepStarted` | Tamagotchi/tamagotchi.py:109-112 | sleeping is set and the counter set to 3, whatever the previous state; nothing else changes |
| `Tamagotchi.SleptTurn` | Tamagotchi/tamagotchi.py:115-121 | energy becomes min(+25, 100); the counter becomes max(counter−1, 0), never negative; the pet stays asleep iff the counter was above 1; nothing else changes |
| `Tamagotchi.GetMood` | Tamagotchi/tamagotchi.py:129-140 | "sleeping" iff sleeping; "happy" iff awake with hunger ≥ 50, happiness ≥ 50 and energy ≥ 30; "sad" iff awake with hunger < 25, happiness < 25 or energy < 20; "neutral" otherwise |
| `Tamagotchi.Acted` | Tamagotchi/tamagotchi.py:301-308 | the action dispatch: check, save and quit change nothing; sleep only sets sleeping and the counter to 3; feed only changes hunger, to min(hunger+30, 100); play only changes happiness, to min(+20, 100), and energy, to max(−15, 0); health, turn, alive and name never change |
| `Tamagotchi.FinishedTurn` | Tamagotchi/tamagotchi.py:317-321 | after decay, drain and the death check, turn goes up by 1 iff the pet is still alive, else stays; death is never undone; the stats stay in range, and a pet is alive afterwards iff it was alive before and its health is positive |
| `Tamagotchi.Resolved` | Tamagotchi/tamagotchi.py:289-321 | one loop pass keeps the invariant (stats in [0, 100], counter in [0, 3], sleeping iff counter > 0, alive iff health > 0); save and quit leave every field unchanged; any other resolved turn advances turn by 1 iff the pet survives; death is monotone |
| `Tamagotchi.Session` | Tamagotchi/tamagotchi.py:285-321 | the `while pet["alive"]` loop over a sequence of inputs keeps the pet's name and never revives a dead pet; its other properties are the Session lemmas below |
| `Tamagotchi.RunGame` | Tamagotchi/tamagotchi.py:265-321 | the `while alive` loop from a fresh pet ends in exactly the state `Session` gives for the same inputs (no input read while asleep, end of input quits) |
| `Tamagotchi.Pet.constructor` | Tamagotchi/tamagotchi.py:55-67 | the new object's record is the initial pet |
| `Tamagotchi.Pet.SetStat` | Tamagotchi/tamagotchi.py:78 | writing one stat changes only that field |
| `Tamagotchi.Pet.DecayStats` | Tamagotchi/tamagotchi.py:75-78 | the loop over DECAY leaves the record equal to `Decayed` of the old record |
| `Tamagotchi.Pet.CheckHealthDrain` | Tamagotchi/tamagotchi.py:81-84 | the record becomes `Drained` of the old record |
| `Tamagotchi.Pet.CheckDeath` | Tamagotchi/tamagotchi.py:87-90 | the record becomes `DeathChecked` of the old record |
| `Tamagotchi.Pet.ApplyFeed` | Tamagotchi/tamagotchi.py:98-100 | the record becomes `Fed` of the old record |
| `Tamagotchi.Pet.ApplyPlay` | Tamagotchi/tamagotchi.py:103-106 | the record becomes `Played` of the old record |
| `Tamagotchi.Pet.StartSleep` | Tamagotchi/tamagotchi.py:109-112 | the record becomes `SleepStarted` of the old record |
| `Tamagotchi.Pet.ProcessSleepTurn` | Tamagotchi/tamagotchi.py:115-121 | the record becomes `SleptTurn` of the old record |
| `Tamagotchi.Pet.FinishTurn` | Tamagotchi/tamagotchi.py:292-296 | decay, drain, death check and conditional turn increment: the record becomes `FinishedTurn` of the old record |
| `Tamagotchi.Pet.ResolveTurn` | Tamagotchi/tamagotchi.py:289-321 | the record becomes `Resolved` of the old record, and a valid record stays valid |
| `TamagotchiProperties.ClampIdempotent` | Tamagotchi/tamagotchi.py:45-47 | clamping twice is clamping once |
| `TamagotchiProperties.FeedStopsDrain` | Tamagotchi/test_tamagotchi.py:158-167 | after a feed, the drain check changes nothing |
| `TamagotchiProperties.SleepCycle` | Tamagotchi/test_tamagotchi.py:274-317 | start, then three sleep turns: still asleep after two with the counter at 1, awake after three with the counter at 0, energy min(e+75, 100) |
| `TamagotchiProperties.ActionIgnoredWhileAsleep` | Tamagotchi/tamagotchi.py:289-297 | while the pet sleeps the turn does not depend on the action |
| `TamagotchiProperties.SleepCycleInTurns` | Tamagotchi/tamagotchi.py:289-306 | the sleep action leaves the pet asleep with 3 turns to go; it is asleep after two more turns and awake after the third, whatever is chosen (the game makes these turns only while the pet survives them; the lemma holds of the resolved turns either way) |
| `TamagotchiProperties.DeathIsFinal` | Tamagotchi/tamagotchi.py:317-321 | a dead pet stays dead and its turn counter does not move |
| `TamagotchiProperties.SessionValid` | Tamagotchi/tamagotchi.py:285-321 | every state a session ends in satisfies the invariant |
| `TamagotchiProperties.SessionEndsAwakeOrDead` | Tamagotchi/tamagotchi.py:285-299 | a session never ends with a living pet asleep: sleep cycles always run out |
| `TamagotchiProperties.SessionTurnMonotone` | Tamagotchi/tamagotchi.py:285-321 | the turn counter never decreases over a session; a dead pet's session changes nothing |
| `TamagotchiProperties.SavingChangesNothing` | Tamagotchi/tamagotchi.py:309-312 | any number of saves leaves the pet exactly as it was |
| `TamagotchiProperties.MoodExamples` | Tamagotchi/test_tamagotchi.py:333-383 | the boundary moods: (50,50,30) happy, (24,100,100) sad, (25,50,30) and (40,40,25) neutral, sleeping with all-zero stats is sleeping |
| `TamagotchiProperties.ThreeDecaysFromFresh` | Tamagotchi/tamagotchi.py:75-78 | three decays from a fresh pet give hunger 65, energy 68, happiness 74, health 100 |
| `TamagotchiProperties.FeedTurnFromFresh` | Tamagotchi/tamagotchi.py:299-321 | feeding a fresh pet and resolving the turn gives hunger 95, happiness 78, energy 76, health 100, turn 2, alive |
| `TamagotchiProperties.StarvingPetDies` | Tamagotchi/tamagotchi.py:317-321 | a starving pet with 10 health dies this turn with health 0, and its turn counter stays put |

## Left out

- Rendering (`render_bar`, `render_pet`, `render_death`): string formatting and printing only; `render_bar` also uses float division and Python's banker's rounding.
- `clear_screen`: runs a shell command.
- `save_game`, `load_game`, `delete_save`: file I/O and JSON. The save action is modelled as an action that resolves no turn and changes nothing. Quit is modelled as the end of the session, without the write to disk.
- `prompt_action` and the start-up prompts (load the save? pet name?): interactive input parsing. Inputs are a sequence of `Action` values. `prompt_action` answers "q" at end of input, and the model matches that: an exhausted sequence reads as Quit. The name is a parameter.
- `time.sleep`, `sys.exit` and the death-screen tail of `run_game`: pacing and process control only.
- Resuming a loaded game: the game loop method starts from a fresh pet, as `run_game` does when no save file is used. A resumed game is covered by `Session` and its lemmas, which hold for any valid starting state.
