# Wheel-and-hero turn engine, in Dafny

A model of the rules engine of a two-player combat game. Each turn, both
players spin five wheels. The faces shown are reduced to totals: squares,
diamonds, hammers, and the experience bonuses of the left and right hero.
Those totals drive a fixed twelve-phase pipeline:

1. experience and level-ups;
2. bulwark (shield) building;
3. energy, which makes heroes ready;
4. to 6. the Assassin, Priest and Engineer actions;
7. the first resolution of pending bombs;
8. the Warrior, Mage and Archer actions;
9. the Priest's second energy delivery;
10. a rerun of every kind except the Priest;
11. the second bomb resolution;
12. the crown (life) check that decides the winner.

The modules follow the source files:

- `Wheels` models `lib/engine/wheel.rs`: the five face tables, the re-spin with locks, the totals, and the dominant symbol.
- `Heroes` models `lib/engine/hero.rs`: one record tagged by kind, the capability tables keyed by (kind, level), and the four mutators.
- `Players` models `lib/engine/player.rs`: crown and bulwark with clamped byte arithmetic, hero lookup by kind, and Assassin target choice.
- `Grids` models the `Bomb`/`Bombs` and `Act`/`Acts` types of `lib/engine/game.rs`, which are identical in the source and share one definition here.
- `Engine` models the per-hero routines `do_*` of `lib/engine/game.rs`.
- `Turns` models `do_turn` of `lib/engine/game.rs`.
- `Base` holds the shared `Option`, the byte type `U8` and saturating arithmetic.

Modelling choices:

- Every `u8` of the source is the subset type `U8` (0..255). An addition that would panic in a debug build is excluded by a precondition. Saturating operations are written out.
- Each routine takes the game and the log so far. It returns a `Step`, which holds the new game, the extended log and what the routine reports.
- The log is a sequence of `Action` values. Rendering them as text is not modelled.
- Random draws are inputs:
  - wheel faces are a sequence of indices;
  - the Assassin's choice between equal-energy targets is a `coin`, one per Assassin call of a turn (`Turns.TieBreaks`).
- The hero invariant `Heroes.Valid` requires level at most 2, experience at most 5, and energy at most the top-level rod length of the kind. The top-level rod is the kind's shortest.
- Experience-granting routines take a `LevelRule`:
  - `AsWritten` follows the source code;
  - `Intended` is the corrected bomb rule (see Findings).

Where the code's comments or names and its behaviour disagree, the model follows the behaviour:

- Wheel 2, face 6 is `Diamond(2, false)`, as coded at `lib/engine/wheel.rs:95`. The comment above that table (`lib/engine/wheel.rs:86`) says a double square.
- `energy_inc` (`lib/engine/hero.rs:390-398`) never leaves energy at the rod length: a full rod empties. A level-up can still shrink the rod to exactly the stored energy, so energy can equal the rod length (`Heroes.LevelUpCanFillRod`). The unchecked subtraction of `get_energy_left` stays safe (`Heroes.ValidEnergyWithinRod`).
- `level_inc` (`lib/engine/hero.rs:377-380`) returns `true` when the hero was already at the maximum. `do_exp_level` (`lib/engine/game.rs:469-477`) takes that `true` as a real level-up: it logs `LevelUpKind::Up` with no bomb for an overflow at the maximum, and `LevelUpKind::Max` with a bomb for a real level-up below it (Findings).

## Model

| member | source | states |
|---|---|---|
| Wheels.Wheel.GetKind | lib/engine/wheel.rs:15-23 | The symbol kind agrees with the face's variant, in both directions. |
| Wheels.W0Sides | lib/engine/wheel.rs:51-66 | Every face 0..7 of wheel 0 shows one to three symbols; faces from 8 up are excluded. |
| Wheels.W1Sides | lib/engine/wheel.rs:69-84 | Every face 0..7 of wheel 1 shows one to three symbols. |
| Wheels.W2Sides | lib/engine/wheel.rs:87-102 | Every face 0..7 of wheel 2 shows one to three symbols; face 6 is two diamonds without bonus, as coded. |
| Wheels.W3Sides | lib/engine/wheel.rs:105-120 | Every face 0..7 of wheel 3 shows one to three symbols. |
| Wheels.W4Sides | lib/engine/wheel.rs:123-138 | Every face 0..7 of wheel 4 shows one to three symbols. |
| Wheels.Sides | lib/engine/wheel.rs:51-138 | Wheel i's table, for i in 0..4, always gives a well-formed face. |
| Wheels.GenRolls | lib/engine/wheel.rs:141-150 | A spin puts wheel i's table entry for face i in slot i, and every slot is well formed. |
| Wheels.GenRollsLocked | lib/engine/wheel.rs:153-165 | A locked slot keeps its face; an unlocked slot i becomes wheel i's entry for its drawn face. |
| Wheels.GenRollsLockedExtremes | lib/engine/wheel.rs:153-165 | Nothing locked is a fresh spin; everything locked changes nothing; a re-spin keeps faces well formed. |
| Wheels.SquareEnergy | lib/engine/wheel.rs:168-171 | Some exactly for a square face, carrying its count. |
| Wheels.SquareExp | lib/engine/wheel.rs:173-176 | Some exactly for a square face with the bonus flag, carrying 1. |
| Wheels.DiamondEnergy | lib/engine/wheel.rs:178-181 | Some exactly for a diamond face, carrying its count. |
| Wheels.DiamondExp | lib/engine/wheel.rs:183-186 | Some exactly for a diamond face with the bonus flag, carrying 1. |
| Wheels.HammerEnergy | lib/engine/wheel.rs:188-191 | Some exactly for a hammer face, carrying its count. |
| Wheels.SymbolSumsPartition | lib/engine/wheel.rs:194-201 | Each face feeds exactly one of the three symbol sums, so they add up to the number of symbols shown. |
| Wheels.ExpSumsBounded | lib/engine/wheel.rs:194-201 | With well-formed faces, each experience sum is at most its symbol sum, and the two together are at most the number of faces. |
| Wheels.CountSumRange | lib/engine/wheel.rs:194-201 | k well-formed faces show between k and 3k symbols. |
| Wheels.FilterMapSumBounded | lib/engine/wheel.rs:194-201 | An extractor yielding at most b per face sums to at most b times the number of faces. |
| Wheels.Totals | lib/engine/wheel.rs:194-201 | The three symbol totals add up to the number of symbols shown, and each experience total is at most five; each of the three symbol byte sums must stay within 255. |
| Wheels.TotalsBounds | lib/engine/wheel.rs:194-201 | Five well-formed faces show 5 to 15 symbols; expL is at most squares, expR at most diamonds, and the two together at most 5. |
| Wheels.MaxByLast | lib/engine/wheel.rs:224-228 | The fold of `max_by` returns an index of a maximal element, and no later element is as large (the last maximum wins); None only for no elements. |
| Wheels.MaxKind | lib/engine/wheel.rs:220-240 | The chosen symbol has a maximal total; a tie goes to the later of Square, Diamond, Hammer. |
| Wheels.MaxKindCharacterised | lib/engine/wheel.rs:220-240 | Each of the three outcomes happens exactly when its tie-rule condition holds, so the random fallback is never reached. |
| Heroes.New | lib/engine/hero.rs:73-95 | A new hero of any kind is at level 0 with no experience, no energy, not ready, and valid. |
| Heroes.CrownDmg | lib/engine/hero.rs:212-233 | The crown-damage table is total for levels 0..2, at most 7, and zero exactly for the Priest. |
| Heroes.BulwarkDmg | lib/engine/hero.rs:235-256 | The bulwark-damage table is at most 5 and zero exactly for the Assassin and the Priest. |
| Heroes.CrownHeal | lib/engine/hero.rs:258-279 | Only the Priest heals, by at most 2. |
| Heroes.Delay | lib/engine/hero.rs:304-325 | Only the Assassin delays, by 1 or 2. |
| Heroes.EnergyGen | lib/engine/hero.rs:327-348 | Only the Priest gives energy, by at most 3. |
| Heroes.RodLen | lib/engine/hero.rs:350-371 | The rod length is always between 3 and 5. |
| Heroes.LevellingNeverWeakens | lib/engine/hero.rs:212-371 | A higher level never lowers any effect, and the rod never grows, shrinking by at most one over the level range. |
| Heroes.EnergyLeft | lib/engine/hero.rs:373-375 | The energy left is at most the rod and zero exactly when energy equals the rod; the subtraction needs energy within the rod. |
| Heroes.ValidEnergyWithinRod | lib/engine/hero.rs:373-375 | A valid hero never holds more energy than its current rod, so the energy left never underflows. |
| Heroes.SetAct | lib/engine/hero.rs:208-210 | Only readiness changes. |
| Heroes.LevelInc | lib/engine/hero.rs:377-380 | Below the maximum the level rises by one and the flag is false; at the maximum nothing changes and the flag is true; nothing else changes. |
| Heroes.ExpInc | lib/engine/hero.rs:382-388 | The flag is true exactly when experience reaches 6; then experience becomes 0 and any surplus is lost, otherwise it is the sum; it always ends below 6. |
| Heroes.EnergyInc | lib/engine/hero.rs:390-398 | The flag is true exactly when energy reaches the rod; then energy becomes 0 and the hero ready, otherwise energy is the sum and readiness is kept. |
| Heroes.EnergyDec | lib/engine/hero.rs:400-410 | A ready hero with an empty rod is knocked back to rod minus the loss, floored at zero, and loses readiness; any other hero loses energy down to zero and keeps readiness. |
| Heroes.MutatorsPreserveValid | lib/engine/hero.rs:377-410 | Every mutator keeps a valid hero valid; the energy loss must be positive. |
| Heroes.ZeroDelayWouldOverfill | lib/engine/hero.rs:400-410 | A loss of zero would overfill a knocked-back level-0 Mage, so the positive-loss condition is needed. |
| Heroes.LevelUpCanFillRod | lib/engine/hero.rs:356 | A level-0 Mage holding four energy that levels up keeps the energy while its rod shrinks to four: the energy equals the rod. |
| Players.HeroPos.Other | lib/engine/player.rs:26-33 | The other side differs from this side. |
| Players.OtherInvolution | lib/engine/player.rs:26-33 | Swapping sides twice returns the original side. |
| Players.Player.HeroAt | lib/engine/player.rs:162-167 | The hero read at a side is one of the player's two heroes. |
| Players.HeroAtWithHero | lib/engine/player.rs:162-181 | Reading a hero and writing it back changes nothing; writing the old hero back undoes a replacement; a replacement keeps the other side. |
| Players.Player.WithHero | lib/engine/player.rs:176-181 | Replacing one hero keeps the other hero, the name, the crown and the bulwark. |
| Players.New | lib/engine/player.rs:130-138 | A new player has crown 10 and bulwark 0 and the given name and heroes. |
| Players.CrownInc | lib/engine/player.rs:144-146 | The crown becomes the sum, capped at 12; nothing else changes. |
| Players.CrownDec | lib/engine/player.rs:148-150 | The crown becomes the difference, floored at 0; nothing else changes. |
| Players.BulwarkInc | lib/engine/player.rs:152-154 | The bulwark becomes the sum, capped at 5; nothing else changes. |
| Players.BulwarkDec | lib/engine/player.rs:156-158 | The bulwark becomes the difference, floored at 0; nothing else changes. |
| Players.ResourcesStayInRange | lib/engine/player.rs:144-158 | The four resource operations keep crown within 0..12 and bulwark within 0..5; healing and building only raise, damage only lowers. |
| Players.GetPosOf | lib/engine/player.rs:190-198 | L when the left hero has the kind, else R when the right one does, else None, each as an iff. |
| Players.GetPosOfAct | lib/engine/player.rs:200-208 | The same search restricted to ready heroes, left first, each case as an iff. |
| Players.GetHeroOf | lib/engine/player.rs:210-218 | The hero found is the one at the side `GetPosOf` gives, and it has the kind. |
| Players.GetHeroOfAct | lib/engine/player.rs:220-228 | The hero found is the one at the side `GetPosOfAct` gives, and it is ready as the kind. |
| Players.ReadyLookupRefinesLookup | lib/engine/player.rs:190-228 | A ready lookup finds nothing when there is no hero of the kind, and agrees with the plain lookup when the first such hero is ready. |
| Players.AssassinTarget | lib/engine/player.rs:254-281 | A ready Assassin on the left means target R, else one on the right means target L, else the side with more energy, with the coin settling a tie. |
| Players.AssassinTargetIgnoresResources | lib/engine/player.rs:254-281 | The target depends on the heroes alone, so damaging the crown first does not change it. |
| Grids.PlayerPos.Other | lib/engine/game.rs:22-29 | The other seat differs from this seat. |
| Grids.Flag.Flip | lib/engine/game.rs:145-150 | Flipping changes the flag. |
| Grids.Flag.Or | lib/engine/game.rs:156-161 | Yes exactly when either flag is Yes. |
| Grids.Flag.And | lib/engine/game.rs:175-180 | Yes exactly when both flags are Yes. |
| Grids.Flag.OrOpt | lib/engine/game.rs:167-169 | A missing flag leaves the flag unchanged. |
| Grids.Flag.AndOpt | lib/engine/game.rs:186-188 | A missing flag leaves the flag unchanged. |
| Grids.FromBool | lib/engine/game.rs:195-197 | Yes exactly for true. |
| Grids.FlagAlgebra | lib/engine/game.rs:145-197 | Yes absorbs Or and No is its identity; No absorbs And and Yes is its identity; both commute; Flip undoes itself and turns Or into And. |
| Grids.Grid.Set | lib/engine/game.rs:217-224 | The chosen slot takes the flag and the other three keep theirs. |
| Grids.Grid.FlipAt | lib/engine/game.rs:226-228 | Only the chosen slot flips. |
| Grids.Grid.OrMut | lib/engine/game.rs:230-234 | No report changes nothing; a report ORs its flag into its own slot only. |
| Grids.Grid.AndMut | lib/engine/game.rs:236-240 | No report changes nothing; a report ANDs its flag into its own slot only. |
| Grids.OrMutIdempotent | lib/engine/game.rs:230-234 | Folding the same report in twice equals folding it in once. |
| Engine.Game.Get | lib/engine/game.rs:381-386 | The player read at a seat is one of the game's two players. |
| Engine.Game.HeroAt | lib/engine/game.rs:402-404 | The hero read at a slot is one of the two heroes of that seat's player. |
| Engine.Id | lib/engine/game.rs:395-400 | A log identity carries the seat and the name of the player in that seat. |
| Engine.IdsStable | lib/engine/game.rs:395-400 | The two seats' identities always differ, even for equal names, and no step of a match changes either identity. |
| Engine.Game.With | lib/engine/game.rs:388-393 | Replacing one player keeps the other player. |
| Engine.Game.WithHero | lib/engine/game.rs:410-414 | Replacing one hero changes only that hero of that player. |
| Engine.LevelAttempt | lib/engine/game.rs:469-477 | After an overflow the level rises unless at the maximum; the log entry and the bomb follow the chosen rule. As written, a real level-up gives a bomb and is logged as "already at the maximum". |
| Engine.DoExpLevel | lib/engine/game.rs:456-484 | No experience: nothing changes, nothing is logged, no bomb. Otherwise the hero gains the experience, ExpUp is logged, an overflow adds the level-up entry, and the bomb follows the rule. The invariants are kept and no level is lost. |
| Engine.LevelRuleReadings | lib/engine/game.rs:469-477 | As written, the bomb comes exactly when `level_inc` reports a real level-up. As intended, it comes exactly when the hero overflows with no level left, and the level-up entry names the new level. |
| Engine.BombInversion | lib/engine/game.rs:469-477 | On concrete heroes, the code as written gives a bomb for a level-0 to level-1 level-up and none for an overflow at level 2; the intended rule gives the opposite. |
| Engine.DoBulwark | lib/engine/game.rs:513-525 | Two hammers or fewer change nothing. Otherwise the bulwark grows by the count minus two, capped at 5, and that amount is logged. |
| Engine.DoEnergy | lib/engine/game.rs:527-548 | Two symbols or fewer change nothing and report No. Otherwise the hero gains the count minus two; a full rod empties and makes the hero ready, and is reported Yes. |
| Engine.Apply | lib/engine/game.rs:558-578 | The actor's readiness is cleared, it gains two experience, and the report names its slot and bomb; the opponent is as given and the log only grows. |
| Engine.Strike | lib/engine/game.rs:665-681 | The opposing bulwark is hit when above the threshold, otherwise the crown is hit, each floored at 0; the heroes are untouched. |
| Engine.Assail | lib/engine/game.rs:566-576 | The opposing crown loses the damage. The chosen target loses readiness and the delay in energy, or is knocked back when it had just become ready. The other hero is untouched. |
| Engine.DoAssassin | lib/engine/game.rs:550-580 | No ready Assassin: nothing happens. Otherwise the Assassin always hits the crown, delays the chosen target, clears its own readiness and gains two experience; its own side is otherwise kept. |
| Engine.Bless | lib/engine/game.rs:596-613 | The crown is healed, capped at 12; the ally gets energy only if not already ready; the Priest itself is kept. |
| Engine.DoPriest | lib/engine/game.rs:582-617 | No ready Priest: nothing happens. Otherwise the Priest heals its own crown and gives the ally energy only if the ally is not ready; the opponent is untouched; the Priest gains two experience. |
| Engine.DoPriestSecond | lib/engine/game.rs:619-649 | The ally gets the Priest's energy exactly when the phase-3 snapshot has both the Priest's slot and the ally's slot ready; otherwise nothing happens. |
| Engine.DoEngineer | lib/engine/game.rs:651-689 | No ready Engineer: nothing happens. Otherwise it hits the bulwark if above 0, else the crown, then builds its own bulwark by 2, capped at 5. |
| Engine.DoWarrior | lib/engine/game.rs:691-726 | No ready Warrior: nothing happens. Otherwise it hits the bulwark if above 0, else the crown; its own side is otherwise kept. |
| Engine.DoMage | lib/engine/game.rs:728-761 | No ready Mage: nothing happens. Otherwise it hits like the Warrior, then hits the crown again for its crown damage, past the bulwark. |
| Engine.DoArcher | lib/engine/game.rs:763-798 | No ready Archer: nothing happens. Otherwise it hits the bulwark only when above 2, else the crown. |
| Engine.DoBomb | lib/engine/game.rs:800-816 | A pending bomb costs the owner's opponent 2 crown, floored at 0, and is logged; the slot always ends empty. |
| Engine.DoBombsOf | lib/engine/game.rs:818-825 | One player's two bombs, left then right, cost the opponent 2 crown each; the player is unchanged. |
| Engine.DoBombs | lib/engine/game.rs:818-825 | Each player loses 2 crown per pending bomb of the other, floored at 0; nothing else changes; every slot ends empty; entries are logged in the order P1L, P1R, P2L, P2R. |
| Engine.DoBombsPreservesValid | lib/engine/game.rs:818-825 | Bomb resolution keeps the invariants and the roster. |
| Turns.WinnerOf | lib/engine/game.rs:900-908 | Both crowns empty is a draw, one empty crown loses, otherwise there is no winner, each as an iff. |
| Turns.WinnerOfSymmetric | lib/engine/game.rs:900-908 | Swapping the crowns swaps the winner. |
| Turns.TotalsOf | lib/engine/game.rs:835-836 | The totals of well-formed rolls stay within their byte bounds and the experience totals within their symbol totals. |
| Turns.ExpOf | lib/engine/game.rs:838-841 | Phase 1 for one player: both heroes gain their bonus experience, each bomb follows the rule, and the other player is kept. |
| Turns.ExpPhase | lib/engine/game.rs:838-842 | Phase 1: all four heroes gain their bonus experience, and the pending grid holds the four bombs; no bonus changes nothing. |
| Turns.BulwarkPhase | lib/engine/game.rs:844-846 | Phase 2: each bulwark grows by its hammers beyond two, capped at 5. |
| Turns.EnergyOf | lib/engine/game.rs:848-852 | Phase 3 for one player: squares charge the left hero and diamonds the right one, and the report says which rods filled. |
| Turns.EnergyPhase | lib/engine/game.rs:848-853 | Phase 3: all four heroes are charged, and the snapshot records which rods filled; no surplus symbol changes nothing. |
| Turns.Perform | lib/engine/game.rs:855-866 | A hero action does nothing exactly when the player has no ready hero of the kind. Otherwise the first ready hero of the kind, left first, ends unready with two more experience, and the report names its slot and its bomb under the rule. An action of any kind but the Priest never raises either crown. |
| Turns.Run | lib/engine/game.rs:855-866 | One action with its bomb folded in. Without a ready hero of the kind nothing changes. Otherwise the actor ends unready with two more experience, and its bomb is ORed into its own slot only, so no pending bomb is cleared. Unless the kind is the Priest, neither crown rises. The log only grows. |
| Turns.EarlyActions | lib/engine/game.rs:855-866 | Phases 4 to 6 keep the invariants, and do nothing when no hero is ready. |
| Turns.LateActions | lib/engine/game.rs:871-877 | Phase 8 keeps the invariants, never raises either crown, and does nothing when no hero is ready. |
| Turns.Rerun | lib/engine/game.rs:884-894 | Phase 10 repeats every kind except the Priest: no crown rises, which a Priest's heal would break. It keeps the invariants and does nothing when no hero is ready. |
| Turns.PriestHeals | lib/engine/game.rs:582-617 | A concrete game on which a Priest action raises its player's crown from 5 to 6, so the no-heal clause separates the Priest from the other kinds. |
| Turns.PriestSecondPhase | lib/engine/game.rs:879-882 | Phase 9: each player's ally gains the Priest's energy exactly when the phase-3 snapshot had both the Priest's slot and the ally's slot ready, and is otherwise unchanged; the pending bombs are kept. |
| Turns.Detonate | lib/engine/game.rs:868-869 | Phases 7 and 11: each player loses 2 crown per pending bomb of the other, floored at 0, nothing else changes, and the grid ends empty. |
| Turns.ApplyRolls | lib/engine/game.rs:833-853 | Phases 1 to 3: each hero gains its bonus experience and is then charged by its surplus symbols, and each bulwark is built by its surplus hammers. The pending grid holds the four experience bombs, and the snapshot says which rods filled. Quiet rolls change nothing. |
| Turns.ResolveActions | lib/engine/game.rs:855-897 | Phases 4 to 11 keep the invariants and end with no pending bomb. With nothing ready, pending or filled, nothing happens. |
| Turns.DoTurn | lib/engine/game.rs:827-909 | After a turn, levels stay at most 2, experience at most 5, crowns within 0..12 and bulwarks within 0..5. The winner is exactly the crown check's result. A turn with nothing to do changes nothing and logs nothing. |

## Left out

- Console I/O and prompting are not modelled: choosing heroes and players, asking for rolls and locks, and the match loops `run` and `run_singleplayer`. Text rendering is left out too: `Action::msg`, the `Display` impls and the `display_*` functions. All of these exchange data with a terminal; none computes game state.
- The random number generator is not modelled. Wheel faces are given as indices, and the Assassin's tie-break is a `coin` input. The random fallback of `max_kind` is unreachable (`Wheels.MaxKindCharacterised`), so no value is supplied for it.
- The computer opponent's lock heuristic `get_rolls_response_cpu` is a strategy, not a game rule, and is not modelled.
- `parse_lock_numbers` only wraps the standard integer parser for user input, and is not modelled.
- `do_exp_level_of` and `get_bulwark_heal` are never called by the engine and are not modelled. The Engineer's own bulwark gain is the literal 2, as in the source.
- The mutable-reference accessors (`get_hero_mut`, `get_hero_of_act_mut`, `get_assassin_target_mut` and the like) become record updates (`WithHero`). The `_mut` variants choose exactly what their read-only twins choose.
- The hero choice ensures each player's two heroes are of distinct kinds: `Player::get_choose` asks again until they differ (`lib/engine/player.rs:63-72`), and `get_choose_cpu` draws the right hero from the other kinds (`lib/engine/player.rs:88-126`). Both are input code and are not modelled. `Player::new` and the engine do not check the condition again, and the model does not assume it: lookups take the left hero first, as the source does.
- Turns.DoTurn: requires rolls whose faces each show one to three symbols (`Turns.WellFormedRolls`). Only such faces come from the wheel tables, and this is what keeps the byte sums of `totals` from overflowing.
- Turns.DoTurn: states the invariants, the crown and bulwark bounds, the winner and the empty turn. It does not state the exact game after an arbitrary turn. The roll phases are pinned down exactly by `Turns.ApplyRolls`, but the action phases are not, as the next line explains.
- Turns.EarlyActions, Turns.LateActions, Turns.Rerun, Turns.ResolveActions: these state the invariants, the emptied grid, the empty case and (for the late actions and the rerun) that no crown rises, not the full effect of their six to ten actions in sequence. `Turns.Run` states what every action does to the actor and to the pending grid.
- Turns.Perform, Turns.Run: these state what an action does to the actor, the report and the grid. The kind-specific effect on the players (damage routing, the Assassin's delay, the Priest's heal, the Engineer's build) is stated on the `Engine.Do*` routine of each kind and is not carried up.
- Engine.Apply and the hero routines promise that the log grows and which entry comes first. Every entry of every routine is not pinned down.
- Heroes.MutatorsPreserveValid: the energy loss must be positive. Every Assassin delay is at least 1, and a zero loss would break the invariant (`Heroes.ZeroDelayWouldOverfill`).

## Findings

| source | as written | input that shows it | evidently intended | confidence | as-written member | corrected member |
|---|---|---|---|---|---|---|
| lib/engine/game.rs:469-477 | `do_exp_level` treats the `true` that `level_inc` returns as "levelled up", but `level_inc` returns `true` when the hero was already at the maximum and nothing happened (lib/engine/hero.rs:377-380). So a real level-up below the maximum yields a bomb and is logged as already at the maximum. An overflow at the maximum yields no bomb and is logged as a level-up to 2. | A level-0 Warrior with 5 experience gains 2 experience from acting. It reaches level 1, drops a bomb, and the log says "already at max level". The same Warrior at level 2 drops no bomb. | A bomb only for an overflow at the maximum level, with real level-ups logged as such. The names of the `LevelUpKind` variants `Up(level)` and `Max` (`lib/engine/game.rs:45-49`) and the flag `level_inc` returns (`lib/engine/hero.rs:377-380`) say so. | not executed | Engine.BombInversion | Engine.LevelRuleReadings |

Every experience-granting routine of the model takes the `LevelRule`. Under `Intended` the whole pipeline runs on the corrected rule, and every invariant and bound is proved for both rules.
