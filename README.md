# Falling-sand game model

A Dafny model of the terminal falling-sand game: a rectangular grid of
element particles; the movement archetypes (powder, liquid, gas, static
solid) that elements inherit; the per-tick scheduler that visits every
cell once and updates each unprocessed element; the rules of every element
with behaviour of its own (acid, ash, cement, fire, lava, water, ice, steam,
smoke, plant, seed, fungus, spore, virus, void, salt, ember, fuse,
gunpowder, thermite, radioactive, cryo, singularity, conveyor belt,
antigravity and photosensitive powder, and the modded emitters,
duplicators, explosives, bomb, bug, glass powder, corrosive gas, frozen
metal and goo); the element registry and its placeable order; the
keyboard handling and the editing cursor; and the command line's `fill`,
`clear`, `select`, `size`, `tag`, `quick_save` and `quick_load`, with the
dictionary form of a grid they save to and load from.

How the model is built:

- The grid is a class over a two-dimensional array of particle objects,
  and particles are objects whose fields the rules update in place.
- Every grid method is stated against a board: a value view of the grid in
  which each cell is empty, holds one of the particles that were there
  before (with its new state), or holds a fresh particle of a given kind.
- Each element rule is written twice, with one tying the two together.
  The pure function on boards is what the property lemmas are about.
  The method on the object grid ensures that the grid afterwards shows the
  board that function gives.
- Every random call (`random.random() < p`, `random.choice`,
  `random.shuffle`, `random.randint`) draws from an explicit stream of
  numbers passed in, so a rule is a function of the board and that stream.
  Probabilities are in thousandths.
- Densities are whole numbers ten times the source's values (4.5 is 45).
  Distance tests with `math.sqrt` are squared-integer comparisons.
- The set of registered elements is a parameter, a map from key to kind.
  The attribute values of the plain element files (key, density and flags)
  live in one table of kinds.

Where the code and its comments disagree, the model follows the code:

- Seed and gunpowder always mark themselves processed in their reactions,
  so the powder movement they inherit never runs and they never fall.
- Water's reactions run before it moves, because `Liquid.update` calls
  `run_interactions` first.

## Model

| member | source | states |
|---|---|---|
| AcidRule.Interact | falling_sand_game/elements/acid.py:19-43 | `run_interactions` on boards: the board keeps its shape, and the acid's own cell is untouched unless the update ended there |
| AcidRule.InteractM | falling_sand_game/elements/acid.py:19-43 | the grid afterwards shows the board `Interact` gives, with the same random stream; the acid is processed exactly when that update ended, and otherwise is still in its cell with its state |
| AcidRule.DissolvesOne | falling_sand_game/elements/acid.py:23-43 | besides its own cell, acid changes exactly the cell it rolled, an unprocessed dissolvable 8-neighbour, which ends empty; every other cell is as it was, and the acid vanishes only after dissolving something |
| AcidRule.DissolvesWhen | falling_sand_game/elements/acid.py:23-43 | the board changes at all exactly when a dissolvable 8-neighbour exists and the 15% roll succeeds |
| AntiGravityRule.Update | falling_sand_game/elements/antigravity_powder.py:17-97 | the update always ends processed and keeps the board's shape |
| AntiGravityRule.UpdateM | falling_sand_game/elements/antigravity_powder.py:17-97 | the grid afterwards shows the board `Update` gives, the powder is processed, and no processed flag is cleared |
| AntiGravityRule.ReversedRule | falling_sand_game/elements/antigravity_powder.py:38-48 | the powder can swap into a gas it strictly outweighs, or an antigravity powder strictly denser than itself, and into nothing else |
| AntiGravityRule.Rises | falling_sand_game/elements/antigravity_powder.py:27-97 | an open cell straight above is always taken; otherwise the powder takes an upper diagonal whose side cell is clear when one exists; with no such move the board changes only by the processed flag |
| AntiGravityRule.NeverDown | falling_sand_game/elements/antigravity_powder.py:27-97 | every changed cell lies in the powder's row or the row above, within one column of it |
| Archetypes.PlanOf | falling_sand_game/elements/base.py:118-470 | a class uses its own update exactly when it overrides one; only static solids and the energy particle get the flag-only update; the liquid and gas updates go exactly to liquids and gases |
| Archetypes.Interaction | falling_sand_game/elements/base.py:212-214 | `run_interactions` keeps the board's shape and, when it leaves the element unprocessed, leaves that element in its cell |
| Archetypes.PowderReactions | falling_sand_game/elements/base.py:212-214 | the same for the powders' reactions |
| Archetypes.LiquidReactions | falling_sand_game/elements/base.py:324-326 | the same for the liquids' reactions |
| Archetypes.GasReactions | falling_sand_game/elements/base.py:420-422 | the same for the gases' reactions |
| Archetypes.SolidReactions | falling_sand_game/elements/base.py:452-454 | the same for the solids' reactions |
| Archetypes.Finish | falling_sand_game/elements/base.py:449-450 | after the closing flag the element is processed and no draw is made |
| Archetypes.PowderRest | falling_sand_game/elements/base.py:140-210 | the rest of the powder update always ends processed |
| Archetypes.LiquidRest | falling_sand_game/elements/base.py:230-322 | the rest of the liquid update always ends processed |
| Archetypes.PowderUpdate | falling_sand_game/elements/base.py:133-210 | the powder update ends with the element processed |
| Archetypes.LiquidUpdate | falling_sand_game/elements/base.py:224-322 | the liquid update ends with the element processed |
| Archetypes.GasUpdate | falling_sand_game/elements/base.py:336-418 | the gas update ends with the element processed |
| Archetypes.SolidUpdate | falling_sand_game/elements/base.py:443-450 | the solid update ends with the element processed |
| Archetypes.Own | falling_sand_game/elements/base.py:40-48 | an overriding update ends with the element processed |
| Archetypes.Update | falling_sand_game/elements/base.py:40-48 | every element's update ends with it processed |
| Archetypes.PowderSteps | falling_sand_game/elements/base.py:140-210 | a powder its reactions processed goes no further; otherwise it falls straight or to one diagonal, or, when the cell below is not open for it, stays put with only its flag set |
| Archetypes.LiquidSteps | falling_sand_game/elements/base.py:230-322 | a liquid its reactions left unprocessed flows into a cell open for it or stays with only its flag set |
| Archetypes.GasReactsInPlace | falling_sand_game/elements/base.py:336-418 | a gas that moved or vanished does not react in that update; one that stayed reacts on the unchanged board, then takes the flag |
| Archetypes.FlagOnlyMarks | falling_sand_game/elements/base.py:465-467 | a static solid (and any flag-only class) changes nothing but its own flag and draws nothing |
| Archetypes.InertClasses | falling_sand_game/elements/mod/new_elements_a.py:486-592 | the energy particle and the absorber have the flag-only update, so their own reaction code never runs in a tick |
| Archetypes.SkipsProcessed | falling_sand_game/elements/base.py:41-42 | an element already processed this tick is left as it is |
| Archetypes.ReactionsM | falling_sand_game/elements/base.py:139-140 | running an element's reactions on the grid shows their outcome, sets the flag exactly when they processed it and otherwise leaves it in its own cell |
| Archetypes.OwnUpdateA | falling_sand_game/elements/base.py:40-48 | the overriding updates of void, singularity, conveyor belt and duplicator on the grid leave the element processed and the grid showing a board |
| Archetypes.OwnUpdateB | falling_sand_game/elements/base.py:40-48 | the same for antigravity powder, photosensitive powder, bomb and bug, and only the bug reorders the shared direction list |
| Archetypes.PowderUpdateM | falling_sand_game/elements/base.py:133-210 | the powder update on the grid shows what `PowderRest` gives after its reactions, with the same random stream |
| Archetypes.LiquidUpdateM | falling_sand_game/elements/base.py:224-322 | the liquid update on the grid shows what `LiquidRest` gives after its reactions |
| Archetypes.GasUpdateM | falling_sand_game/elements/base.py:336-418 | the gas update on the grid shows what `GasMove` gives when the gas moved, and otherwise its reactions followed by the flag |
| Archetypes.SolidUpdateM | falling_sand_game/elements/base.py:443-450 | the solid update on the grid shows its reactions followed by the flag |
| Archetypes.UpdateM | falling_sand_game/elements/base.py:40-48 | `element.update(grid)` leaves the element processed; one already processed changes nothing, and a flag-only element changes only its flag |
| AshRule.Interact | falling_sand_game/elements/ash.py:18-44 | the board keeps its shape and is unchanged unless the ash reacted |
| AshRule.InteractM | falling_sand_game/elements/ash.py:18-44 | the grid afterwards shows the board `Interact` gives, with the same random stream; the ash is processed exactly when it turned to mud, and otherwise is unchanged in its cell |
| AshRule.Muddies | falling_sand_game/elements/ash.py:18-44 | mud forms only with 'R' registered beside unprocessed orthogonal water; then only the ash's cell (now unprocessed mud with the ash's tags) and that water's cell (now empty) change; without water no random draw is taken |
| AshRule.MuddiesWhen | falling_sand_game/elements/ash.py:18-44 | with 'R' registered, each unprocessed orthogonal water cell in turn takes its own 60% draw; the ash turns to mud exactly when one of those draws succeeds, and it empties the water whose draw was the first success |
| AshRule.NeverWith0 | falling_sand_game/elements/ash.py:29-32 | with 'R' unregistered every roll of the loop comes to nothing, although each roll is still drawn |
| Boards.Initial | falling_sand_game/elements/base.py:34-38 | a new element starts unprocessed, with the given tags, its class's density, and every timer and flag cleared |
| Boards.Particle.constructor | falling_sand_game/elements/base.py:34-38 | a new particle has its kind, its coordinates and the initial state of its class |
| Boards.Particle.SetState | falling_sand_game/elements/base.py:13-38 | writing the whole state of a particle keeps its coordinates |
| Boards.Put | falling_sand_game/grid.py:62-83 | a write inside the board changes exactly that slot and keeps the shape |
| Boards.Set | falling_sand_game/grid.py:62-83 | `set_element` on boards: a write inside the grid changes exactly that slot, a write outside changes nothing |
| Boards.Proc | falling_sand_game/elements/base.py:47-48 | marking the element processed keeps the board's shape |
| Boards.MoveB | falling_sand_game/elements/base.py:87-96 | the move keeps the board's shape |
| Boards.SwapB | falling_sand_game/elements/base.py:65-84 | the swap keeps the board's shape |
| Boards.MapUpTo | falling_sand_game/grid.py:94-98 | a row-major sweep up to a cell applies the slot map exactly to the cells before it |
| Boards.MapStep | falling_sand_game/grid.py:94-98 | one more visit of a row-major sweep is one more slot mapped |
| Boards.MapRow | falling_sand_game/grid.py:94-95 | the end of one row of a sweep is the start of the next |
| Boards.Unmark | falling_sand_game/grid.py:97-98 | clearing the flag never empties or fills a slot |
| Boards.RowCellsExact | falling_sand_game/grid.py:103-106 | a row lists exactly its occupied cells, in increasing column order |
| Boards.FilledExact | falling_sand_game/grid.py:100-106 | the listing holds exactly the occupied cells of the grid's first rows, in row-major order |
| Boards.AppendRowMajor | falling_sand_game/grid.py:102-106 | two row-major lists, the first entirely before the second, concatenate to a row-major list |
| Boards.NoSelf | falling_sand_game/elements/base.py:98-115 | no neighbourhood the elements check contains the cell itself |
| Boards.Scan | falling_sand_game/elements/base.py:98-115 | `check_neighbors` never collects more cells than it has offsets |
| Boards.ScanSound | falling_sand_game/elements/base.py:108-115 | every collected cell is on the board, satisfies the condition and lies at one of the offsets |
| Boards.ScanOthers | falling_sand_game/elements/base.py:108-115 | without the zero offset the scan never collects the cell it starts from |
| Boards.ScanComplete | falling_sand_game/elements/base.py:108-115 | every in-grid cell at an offset that satisfies the condition is collected |
| Boards.ScanSnoc | falling_sand_game/elements/base.py:109-114 | one more offset extends the scan by that cell exactly when it is in the grid and qualifies |
| Boards.ScanAnyOf | falling_sand_game/elements/base.py:108-115 | over exactly the offsets of a neighbourhood, the scan finds something iff some such cell qualifies |
| Boards.Scan8 | falling_sand_game/elements/base.py:108-115 | both eight-cell scans find something iff some cell around qualifies |
| Boards.Scan4 | falling_sand_game/elements/base.py:108-115 | both four-cell scans find something iff some side neighbour qualifies |
| Boards.ScanIn8 | falling_sand_game/elements/base.py:108-115 | what an eight-cell scan collects is in the grid, qualifies and is around the cell |
| Boards.ScanIn4 | falling_sand_game/elements/base.py:108-115 | what a four-cell scan collects is in the grid, qualifies and shares a side with the cell |
| Boards.ScanSplit | falling_sand_game/elements/base.py:109-114 | a scan over a split offset list is the concatenation of the two scans |
| Boards.InScan4Iff | falling_sand_game/elements/base.py:108-115 | an in-grid cell is collected by the four-cell scan exactly when it shares a side and qualifies |
| Boards.InScan8 | falling_sand_game/elements/base.py:108-115 | one collected cell of an eight-cell scan is in the grid, qualifies, is around the cell and is not the cell itself |
| Boards.InScan4 | falling_sand_game/elements/base.py:108-115 | one collected cell of a four-cell scan is in the grid, qualifies, shares a side and is not the cell itself |
| BugRule.Breed | falling_sand_game/elements/mod/new_elements_a.py:260-285 | a cell is chosen only when an unprocessed water neighbour was found, and it is one of the empty cells the direction scan collected; without such a neighbour nothing is chosen and no draw is made |
| BugRule.HoleOthers | falling_sand_game/elements/mod/new_elements_a.py:272-276 | the free cells collected for the offspring are in the grid, empty, and never the bug's own |
| BugRule.Bred | falling_sand_game/elements/mod/new_elements_a.py:260-285 | breeding keeps the board's shape and leaves the parent's cell untouched |
| BugRule.Walk | falling_sand_game/elements/mod/new_elements_a.py:290-305 | the walk over a direction list keeps the board's shape |
| BugRule.Update | falling_sand_game/elements/mod/new_elements_a.py:314-328 | the update always ends processed, keeps the board's shape and leaves a direction list of the same length |
| BugRule.Roam | falling_sand_game/elements/mod/new_elements_a.py:287-305 | the move step always ends processed, keeps the board's shape and leaves a direction list of the same length |
| BugRule.UpdateM | falling_sand_game/elements/mod/new_elements_a.py:257-328 | the grid afterwards shows the board `Update` gives, the shared direction list is the one `Update` gives, the bug is processed, and no processed flag is cleared |
| BugRule.RoamM | falling_sand_game/elements/mod/new_elements_a.py:287-305 | the grid, the random stream and the shared list afterwards are those `Roam` gives, and the bug is processed |
| BugRule.BreedM | falling_sand_game/elements/mod/new_elements_a.py:261-279 | the two neighbour loops and the draws return exactly what `Breed` gives |
| BugRule.WalkM | falling_sand_game/elements/mod/new_elements_a.py:289-299 | the shared list is replaced by its shuffle and the grid shows the walk over the shuffled list |
| BugRule.KeepsDirections | falling_sand_game/elements/mod/new_elements_a.py:254-289 | the shared list only ever holds the same four orthogonal directions, each once |
| BugRule.ScanOrth | falling_sand_game/elements/mod/new_elements_a.py:262-276 | over any order of the four directions, a scan finds something exactly when some orthogonal in-grid neighbour qualifies, and only orthogonal cells are found |
| BugRule.BreedsWhen | falling_sand_game/elements/mod/new_elements_a.py:262-279 | a bug breeds exactly when an unprocessed water (key 'W') and an empty cell are among its orthogonal neighbours and the 0.1% roll succeeds; without water no draw is made |
| BugRule.BredEmpty | falling_sand_game/elements/mod/new_elements_a.py:272-284 | breeding changes at most cells that were empty, each into an unprocessed bug with the parent's tags, and only beside the parent |
| BugRule.WalkEmpty | falling_sand_game/elements/mod/new_elements_a.py:290-305 | the walk empties the bug's cell or only marks it processed, and moves the processed bug only into an empty orthogonal neighbour |
| BugRule.WalkWhen | falling_sand_game/elements/mod/new_elements_a.py:290-299 | over the four directions, the bug leaves its cell exactly when some orthogonal neighbour is empty |
| BugRule.EntersEmpty | falling_sand_game/elements/mod/new_elements_a.py:257-328 | every cell the update changes besides the bug's own was empty and now holds the offspring or the processed bug, and it lies beside the bug |
| BugRule.WalksWhen | falling_sand_game/elements/mod/new_elements_a.py:287-305 | the bug leaves its cell exactly when the 30% roll succeeds and an orthogonal cell is empty after breeding |
| Cells.Born | falling_sand_game/elements/base.py:34-38 | a new element of the given class carries exactly the given tags and processed flag |
| Cells.Fresh | falling_sand_game/grid.py:17-42 | `create_element` makes nothing exactly for an unregistered key, and otherwise a new element of the registered class with the given tags |
| Cells.Strike | falling_sand_game/elements/acid.py:33-34 | `if candidates and random.random() < p: random.choice(candidates)`: a hit happens exactly when there are candidates and the roll succeeds, it lands on a candidate, and without candidates nothing is drawn |
| Cells.FirstRoll | falling_sand_game/elements/ash.py:23-40 | when each candidate gets its own roll, the hit, if any, is one of the collected candidates |
| Cells.StrikeM | falling_sand_game/elements/acid.py:33-34 | the roll and the choice, drawn in turn, give what `Strike` gives |
| Cells.FirstRollNone | falling_sand_game/elements/ash.py:23-40 | with no candidate there is no hit and no draw |
| Cells.Spawn | falling_sand_game/grid.py:17-42 | an element is written exactly when its key is registered, and then into that cell |
| Cells.Overwrite | falling_sand_game/grid.py:62-83 | `set_element(i, j, create_element(key, ...))` writes the new element, or empties the cell for an unregistered key |
| Cells.LandM | falling_sand_game/grid.py:17-83 | the element made by key is written into the chosen cell, if any, and the acting element keeps its own cell |
| Cells.LandKindM | falling_sand_game/elements/mod/new_elements_a.py:281-284 | an element made by class is written into the chosen cell, if any, and the acting element keeps its own cell |
| Cells.WipeM | falling_sand_game/elements/acid.py:33-36 | the chosen cell, if any, is emptied and the acting element keeps its own cell |
| Cells.SpawnKind | falling_sand_game/elements/mod/new_elements_a.py:281-284 | an element made by its class's constructor is written into the cell |
| Cells.BecomeM | falling_sand_game/elements/mod/new_elements_a.py:358-366 | the element is replaced by one made by key when that key is registered, and is processed either way |
| Cells.ReplaceM | falling_sand_game/elements/ash.py:31-36 | `set_element(y, x, create_element(key, ...))` at the element's own cell, then it is processed |
| Cells.VanishM | falling_sand_game/elements/mod/new_elements_a.py:390-393 | `set_element(y, x, None)` at the element's own cell, then it is processed |
| Cells.RestateM | falling_sand_game/elements/base.py:13-38 | writing an element's fields in place keeps its cell and never clears its processed flag |
| Cells.Tagged | falling_sand_game/elements/mod/new_elements_a.py:481 | appending a tag keeps the element and the rest of its state |
| Cells.TagM | falling_sand_game/elements/mod/new_elements_a.py:481 | `neighbor.tags.append(tag)` changes only that neighbour's tags, its processed flag included |
| Cells.MarkSelf | falling_sand_game/elements/base.py:47-48 | `self.processed = True` for an element on the grid keeps its cell and marks that slot |
| Cells.ScanM | falling_sand_game/elements/base.py:98-115 | the neighbour loop returns exactly the cells `Scan` collects, in order |
| Cells.ScanOne | falling_sand_game/elements/base.py:110-114 | one pass of the neighbour loop collects the cell exactly when it is in the grid and qualifies |
| Cells.First | falling_sand_game/elements/mod/new_elements_a.py:349-356 | the first collected cell, a hit exactly when something was collected |
| Cells.FindM | falling_sand_game/elements/mod/new_elements_a.py:349-356 | the neighbour loop that breaks at the first qualifying cell returns exactly the first cell the scan collects |
| Cells.FirstRollM | falling_sand_game/elements/ash.py:23-40 | the loop with a roll per candidate returns the hit and random stream `FirstRoll` gives |
| Cells.SetAll | falling_sand_game/elements/gunpowder.py:45-56 | writing into a list of cells keeps the board's shape |
| Cells.SetAllAt | falling_sand_game/elements/gunpowder.py:45-56 | after writing into a list of cells, a cell holds the written slot exactly when it is in the list |
| Cells.SetAllM | falling_sand_game/elements/gunpowder.py:45-56 | the loop over the cells writes the element into each in turn |
| Cells.QuenchM | falling_sand_game/elements/ice.py:49-63 | the cooling of the heat source ends on the board and random stream `Quench` gives, with the write unguarded as in ice or guarded as in water |
| Cells.QuenchOne | falling_sand_game/elements/water.py:53-71 | after the element's own cell is rewritten, the cooling changes exactly the heat source's cell when its roll succeeds: an ember to processed ash, a fire to processed smoke (unguarded, as in ice at ice.py:52-63, an unregistered product leaves the cell empty; guarded, as in water, it is left as it was), and otherwise nothing; a roll is drawn only for an ember or a fire |
| Cells.LookAtM | falling_sand_game/grid.py:56-60 | returns what the board shows at the chosen cell |
| CementRule.Interact | falling_sand_game/elements/cement_powder.py:19-50 | the board keeps its shape and is unchanged unless the cement set |
| CementRule.InteractM | falling_sand_game/elements/cement_powder.py:19-50 | the grid afterwards shows the board `Interact` gives, with the same random stream; the cement is processed exactly when it set, and otherwise is unchanged in its cell |
| CementRule.Sets | falling_sand_game/elements/cement_powder.py:23-50 | the cement sets exactly when unprocessed orthogonal water exists and the 80% roll succeeds; then its cell holds what key 'O' makes, the first such water in right, left, down, up order is emptied, and nothing else changes; without water no draw is taken |
| Commands.Lower | falling_sand_game/command.py:72 | lower-casing keeps the length and lowers each character on its own |
| Commands.LowerTwice | falling_sand_game/command.py:72 | lower-casing twice is lower-casing once |
| Commands.LowerHasNoCapital | falling_sand_game/command.py:72 | lower-cased text has no upper-case ASCII letter |
| Commands.ParseInt | falling_sand_game/command.py:258-259 | `int` only accepts a non-empty word |
| Commands.Decimal | falling_sand_game/command.py:258-259 | the decimal digits of a number are a non-empty string of digits |
| Commands.DecimalValue | falling_sand_game/command.py:258-259 | the digits of n have value n |
| Commands.ParseShow | falling_sand_game/command.py:258-259 | every number written out reads back as itself |
| Commands.NumberArg | falling_sand_game/command.py:255-267 | a numeric argument is taken exactly when there is one argument, it is a number and it lies in the range; otherwise the failure is the wrong count, not a number, or out of range, in that order |
| Commands.ByName | falling_sand_game/command.py:136-142 | the name search finds a registered key whose lower-cased name matches, and the first such key in registry order; it finds nothing exactly when no registered name matches |
| Commands.FindByName | falling_sand_game/command.py:136-142 | the registry loop, which stops at the first match, finds what `ByName` gives |
| Commands.Resolve | falling_sand_game/command.py:129-145 | an identifier resolves only to a registered key, and a registered key never fails to resolve |
| Commands.ResolveKey | falling_sand_game/command.py:216-219 | a registered key always names its own element, whatever names the classes have |
| Commands.ResolveName | falling_sand_game/command.py:221-230 | an identifier that is no key resolves to the first element in registry order whose name matches it ignoring case |
| Commands.IndexOf | falling_sand_game/command.py:241 | `list.index` gives the first position holding the item |
| Commands.RemoveFirst | falling_sand_game/command.py:315-316 | `list.remove` takes exactly one occurrence of the tag out, if there is one |
| Commands.NoDupCons | falling_sand_game/command.py:308-310 | a list with a head is without repeats exactly when the head is not in the tail and the tail is without repeats |
| Commands.RemoveFirstNoDup | falling_sand_game/command.py:315-316 | from a list without repeats, removing a tag leaves a list without it and without repeats |
| Commands.RemoveLast | falling_sand_game/command.py:315-316 | removing a tag from a list that ends in its only occurrence takes that last item off |
| Commands.TagEdit | falling_sand_game/command.py:298-334 | a failed, silent or unchanged `tag` leaves the tags as they were, and it is silent exactly when it has no arguments |
| Commands.TagAdd | falling_sand_game/command.py:305-312 | `tag add t` makes t a current tag; it answers unchanged exactly when t was there, adds exactly one t only when it was missing, and keeps a list without repeats |
| Commands.TagRemove | falling_sand_game/command.py:313-320 | `tag remove t` fails exactly when t is not a current tag, leaving the list; otherwise exactly one t is gone, and from a list without repeats every t is gone |
| Commands.TagAddRemove | falling_sand_game/command.py:305-320 | adding then removing a tag that was not there gives back the list it started from |
| Commands.TagSetClear | falling_sand_game/command.py:321-330 | `tag set` makes the remaining words the tags; `tag clear` empties the list, and with more words fails and keeps it |
| Commands.RouteAsWritten | falling_sand_game/command.py:72-101 | the dispatch as written, with the word lower-cased before every lookup, only ever selects a registered key |
| Commands.Route | falling_sand_game/command.py:72-101 | the dispatch with the key looked up as typed only ever selects a registered key |
| Commands.RouteLowersKey | falling_sand_game/command.py:72-85 | with keys 'W' and 'w' registered, typing `W` as written selects the element of 'w' |
| Commands.RouteMissesKey | falling_sand_game/command.py:72-101 | with only 'S' registered and no name `s`, typing `S` as written is an unknown command |
| Commands.NoShortCommand | falling_sand_game/command.py:72-75 | a one-character word is never a command name, so it always reaches the element lookup |
| Commands.RouteKeys | falling_sand_game/command.py:72-101 | in the corrected dispatch every registered key typed alone selects its element, and a command name in any case runs that command |
| Commands.RouteAgrees | falling_sand_game/command.py:72-101 | both dispatches agree on every word without capital letters |
| Commands.QuickLoadOffGrid | falling_sand_game/command.py:537-545 | when the loaded grid is shorter than the game area, clamping to the game area can leave the cursor row below the grid |
| Commands.Processor.QuickLoadLeavesGrid | falling_sand_game/command.py:537-545 | with the cursor on the bottom row of the game area, the as-written quick load of a slot whose grid is lower than the game area succeeds and leaves the cursor below the loaded grid, off the grid |
| Commands.SavedIsLoadable | falling_sand_game/command.py:338-429 | the dictionary of any grid with positive dimensions builds a grid again |
| Commands.Processor.constructor | falling_sand_game/command.py:20-37 | a new processor has no quick-save slots filled |
| Commands.Processor.FillCmd | falling_sand_game/command.py:123-198 | `fill` fails on a wrong argument count, an unknown element, or a cursor off the grid; answers unchanged exactly when the cursor's cell already holds that key; otherwise it fills exactly the connected region of the cursor cell's key with new elements of the chosen class and reports its size, and leaves every other cell as it was |
| Commands.Processor.Identify | falling_sand_game/command.py:129-145 | the key-then-name lookup of `fill` and `select` gives what `Resolve` gives |
| Commands.Processor.FillAt | falling_sand_game/command.py:150-198 | the fill from the cursor answers unchanged exactly when the cell already holds the key, and otherwise floods its connected region |
| Commands.Processor.ClearCmd | falling_sand_game/command.py:200-205 | `clear` with no argument empties every cell of the grid; with arguments it fails and changes nothing |
| Commands.Processor.SelectCmd | falling_sand_game/command.py:207-252 | `select` fails on a wrong count, an unknown element or a key outside the placeable list, changing nothing; otherwise it selects the first position of that key and scrolls the list to show it |
| Commands.Processor.SizeCmd | falling_sand_game/command.py:255-267 | `size` takes a cursor size of 1 to 10 and otherwise fails with the size unchanged |
| Commands.Processor.TagCmd | falling_sand_game/command.py:298-334 | `tag` changes the current tags as `TagEdit` says |
| Commands.Processor.QuickSaveCmd | falling_sand_game/command.py:496-514 | `quick_save n` for n from 0 to 9 stores the dictionary of the current grid in slot n, and otherwise fails with the slots unchanged |
| Commands.Processor.QuickLoadAsWritten | falling_sand_game/command.py:517-551 | `quick_load` as written succeeds exactly for a filled slot 0 to 9, replaces the grid with the one the slot builds and clamps the cursor into the game area; a failure changes nothing |
| Commands.Processor.QuickLoadCmd | falling_sand_game/command.py:517-551 | the corrected `quick_load` does the same but clamps the cursor into the loaded grid, so afterwards the cursor is on the grid |
| Commands.Processor.Process | falling_sand_game/command.py:62-113 | the corrected dispatch: an empty line, an unknown word and a name outside the modelled table change nothing (grid, cursor, cursor size, tags, selection and slots); a key or name selects that element with `select`'s outcome and changes only the selection; each modelled command name has that command's outcome and changes only its own part of the state; a fill gives the filled region R with `|R|` as its count, closed under same-key neighbours and reached from the cursor's cell by a search tree, so R is the cursor's whole connected component |
| ConveyorRule.Push | falling_sand_game/elements/conveyor_belt.py:21-85 | keeps the board's shape and leaves the belt marked processed whatever happens |
| ConveyorRule.ReadyM | falling_sand_game/elements/conveyor_belt.py:26-52 | returns the element above the belt exactly when the push condition holds, and the view of the target cell |
| ConveyorRule.SlideM | falling_sand_game/elements/conveyor_belt.py:72-81 | with an empty target, the grid afterwards shows `Push`'s board and the belt is processed |
| ConveyorRule.TradeM | falling_sand_game/elements/conveyor_belt.py:62-81 | with a gas or liquid target, the grid afterwards shows `Push`'s board and the belt is processed |
| ConveyorRule.PushM | falling_sand_game/elements/conveyor_belt.py:21-85 | the grid afterwards shows the board `Push` gives, the belt is processed, and no processed flag is cleared |
| ConveyorRule.PushesWhen | falling_sand_game/elements/conveyor_belt.py:26-54 | the belt pushes exactly when an unprocessed non-static element sits right above it and the cell right of that is inside the grid and empty or a lighter gas or liquid |
| ConveyorRule.PushMoves | falling_sand_game/elements/conveyor_belt.py:59-81 | a push moves the element one cell right, marked processed; the target's old content (possibly empty) takes its place unprocessed; only those two cells and the belt change |
| ConveyorRule.IdleBelt | falling_sand_game/elements/conveyor_belt.py:83-85 | without a push only the belt changes, by being marked processed |
| ConveyorRule.PushStrict | falling_sand_game/elements/conveyor_belt.py:46-50 | a push into an occupied cell needs a strictly heavier element |
| CorrosiveGasRule.Interact | falling_sand_game/elements/mod/new_elements_a.py:385-414 | `run_interactions` keeps the board's shape, and unless the gas dissipated its own cell is untouched |
| CorrosiveGasRule.InteractM | falling_sand_game/elements/mod/new_elements_a.py:385-414 | the grid afterwards shows the board `Interact` gives, with the same random stream; the gas is processed exactly when it dissipated, and otherwise is still in its cell with its state |
| CorrosiveGasRule.CorrodesOne | falling_sand_game/elements/mod/new_elements_a.py:390-412 | the gas dissipates exactly on the 1% roll, which empties only its own cell; otherwise at most the chosen cell changes, to empty, and that cell is an orthogonal neighbour acid could dissolve |
| CorrosiveGasRule.CorrodesWhen | falling_sand_game/elements/mod/new_elements_a.py:396-412 | a neighbour is corroded exactly when the 5% roll succeeds and an unprocessed acid-dissolvable orthogonal neighbour exists; an undissipated gas changes the board exactly then |
| CryoRule.Interact | falling_sand_game/elements/cryo_powder.py:18-51 | the board keeps its shape, and the powder's own cell is untouched unless the update ended there |
| CryoRule.InteractM | falling_sand_game/elements/cryo_powder.py:18-51 | the grid afterwards shows the board `Interact` gives, with the same random stream; the powder is processed exactly when it was used up, and otherwise is still in its cell with its state |
| CryoRule.FreezesOne | falling_sand_game/elements/cryo_powder.py:22-51 | with a hit and a 'C' class the powder changes exactly the rolled freezable 8-neighbour besides its own cell, into processed ice with that neighbour's tags; with no hit or no 'C' class nothing changes; it is used up only after freezing something |
| CryoRule.FreezesWhen | falling_sand_game/elements/cryo_powder.py:22-51 | the board changes at all exactly when a class is registered under 'C', a freezable 8-neighbour exists and the 35% roll succeeds |
| DuplicatorRule.InDup | falling_sand_game/elements/mod/duplicator/duplicator.py:44-49 | every collected target is an in-grid empty cell below, left or right of the duplicator, never its own |
| DuplicatorRule.Update | falling_sand_game/elements/mod/duplicator/duplicator.py:23-73 | the update always ends processed and keeps the board's shape |
| DuplicatorRule.OriginalM | falling_sand_game/elements/mod/duplicator/duplicator.py:31-37 | returns the view of the cell above, nothing when it is off the grid |
| DuplicatorRule.UpdateM | falling_sand_game/elements/mod/duplicator/duplicator.py:23-73 | the grid afterwards shows the board `Update` gives, with the same random stream, and the duplicator is processed |
| DuplicatorRule.ChooseM | falling_sand_game/elements/mod/duplicator/duplicator.py:52-73 | after a successful roll with a free target, the choice and the copy end on the board `Update` gives |
| DuplicatorRule.CopyM | falling_sand_game/elements/mod/duplicator/duplicator.py:61-69 | the copy is written into the chosen cell and the duplicator is marked processed |
| DuplicatorRule.CopiesOne | falling_sand_game/elements/mod/duplicator/duplicator.py:23-73 | the duplicator ends processed and at most one other cell changes: an empty cell below or beside it, which receives a new element of the key above with that element's tags; the element above is never changed |
| DuplicatorRule.CopiesWhen | falling_sand_game/elements/mod/duplicator/duplicator.py:36-69 | a copy is made exactly when a non-duplicator sits right above, the 20% roll succeeds, a target cell is empty and the key is registered; with nothing to copy no roll is drawn |
| DuplicatorRule.DupDirsBeside | falling_sand_game/elements/mod/duplicator/duplicator.py:20 | the three directions find a free cell exactly when some cell below or beside is empty |
| DuplicatorRule.NoChain | falling_sand_game/elements/mod/duplicator/duplicator.py:40 | a duplicator never copies another duplicator above it and then draws nothing |
| EmberRule.Interact | falling_sand_game/elements/ember.py:23-60 | an ember's reactions keep the board's shape and always leave it processed |
| EmberRule.InteractM | falling_sand_game/elements/ember.py:23-60 | the reactions on the grid show the board `Interact` gives, with the same random stream, and leave the ember processed |
| EmberRule.IgnitesOne | falling_sand_game/elements/ember.py:27-60 | apart from its own cell an ember changes exactly the orthogonal kindling neighbour it hits, into processed fire (empty when no fire class is registered), and nothing else; then, on the 4% (after igniting) or 2% roll, it becomes unprocessed ash, and otherwise it stays with its flag set |
| EmberRule.IgnitesWhen | falling_sand_game/elements/ember.py:27-45 | some cell besides the ember's own changes exactly when kindling lies orthogonally beside it and the 25% roll succeeds |
| EmitterRule.Adjacent | falling_sand_game/elements/mod/emitter/emitter.py:24-61 | `run_interactions` of the emitter keeps the board's shape and changes nothing when it does not emit |
| EmitterRule.CleanKeys | falling_sand_game/elements/mod/emitter/emitter.py:146 | the filtered key list is never longer than the placeable keys |
| EmitterRule.AdjacentM | falling_sand_game/elements/mod/emitter/emitter.py:24-61 | the grid afterwards shows the board `Adjacent` gives, with the same random stream; the emitter is processed exactly when it emitted, and otherwise is still in its cell with its state |
| EmitterRule.EmitAtM | falling_sand_game/elements/mod/emitter/emitter.py:47-57 | a new unprocessed element of the chosen key is written into the target cell and the emitter is marked processed |
| EmitterRule.CleanM | falling_sand_game/elements/mod/emitter/emitter.py:130-164 | the clean emitter does what the emitter does over the keys with every 'v' removed |
| EmitterRule.CleanM1 | falling_sand_game/elements/mod/emitter/emitter.py:146 | the loop returns the filtered key list |
| EmitterRule.DiskRowIff | falling_sand_game/elements/mod/emitter/emitter.py:85-92 | the inner loop collects exactly the aimable cells of its row from its start column to the edge of the square |
| EmitterRule.DiskRowsIff | falling_sand_game/elements/mod/emitter/emitter.py:84-92 | the outer loop collects exactly the aimable cells of its rows within the square |
| EmitterRule.DiskSquare | falling_sand_game/elements/mod/emitter/emitter.py:82-88 | every offset within distance five lies inside the square the loops sweep |
| EmitterRule.DiskIff | falling_sand_game/elements/mod/emitter/emitter.py:82-92 | the candidate cells are exactly the in-grid cells other than the emitter's own within Euclidean distance five |
| EmitterRule.Far | falling_sand_game/elements/mod/emitter/emitter.py:74-117 | `run_interactions` of the powerful emitter keeps the board's shape and changes nothing when it does not emit |
| EmitterRule.DiskM | falling_sand_game/elements/mod/emitter/emitter.py:82-92 | the nested loops build exactly the candidate list, in the loops' order |
| EmitterRule.RowM | falling_sand_game/elements/mod/emitter/emitter.py:85-92 | the inner loop builds exactly one row's candidates, in order |
| EmitterRule.FarM | falling_sand_game/elements/mod/emitter/emitter.py:74-117 | the grid afterwards shows the board `Far` gives, with the same random stream; the emitter is processed exactly when it emitted, and otherwise is still in its cell with its state |
| EmitterRule.AdjacentEmits | falling_sand_game/elements/mod/emitter/emitter.py:30-57 | an emission marks the emitter processed and changes exactly one other cell, an empty orthogonal neighbour, into a new unprocessed element of a registered key from the list |
| EmitterRule.AdjacentEmitsWhen | falling_sand_game/elements/mod/emitter/emitter.py:30-57 | an adjacent emission happens exactly when the roll succeeds, the drawn direction leads to an empty cell on the grid, the key list is not empty and the drawn key is registered; then that cell holds a new unprocessed element of that key |
| EmitterRule.AdjacentBlocked | falling_sand_game/elements/mod/emitter/emitter.py:36-41 | with every orthogonal neighbour off the grid or occupied, or with no keys, the emitter changes nothing |
| EmitterRule.CleanKeysIff | falling_sand_game/elements/mod/emitter/emitter.py:146 | a key survives the filter exactly when it is in the list and is not 'v' |
| EmitterRule.CleanKeepsAll | falling_sand_game/elements/mod/emitter/emitter.py:145-151 | no element class has key 'v', so over registered keys the filter removes nothing and the virus 'V' stays a candidate |
| EmitterRule.FarEmits | falling_sand_game/elements/mod/emitter/emitter.py:79-115 | an emission marks the emitter processed and changes exactly one other cell within distance five, which now holds a new unprocessed element of a registered key from the list, whatever it held before |
| EmitterRule.FarEmitsWhen | falling_sand_game/elements/mod/emitter/emitter.py:79-115 | a far emission happens exactly when the power roll succeeds, some cell lies within distance five, the key list is not empty and the drawn key is registered; then the drawn cell holds a new unprocessed element of that key |
| ExplosiveRule.IgnitesM | falling_sand_game/elements/mod/new_elements_a.py:31-53 | returns exactly whether some in-grid neighbour of the eight is an igniter: unprocessed, and a heat source, a fuse, or a lit 'D' or 'B' |
| ExplosiveRule.LitExplosive | falling_sand_game/elements/mod/new_elements_a.py:59-65 | a lit explosive is lit, has the five-frame fuse, and carries the extra "lit" tag |
| ExplosiveRule.LitBomb | falling_sand_game/elements/mod/new_elements_a.py:151-156 | a lit bomb is lit and movable, carries the extra "lit" tag, and keeps its timer value |
| ExplosiveRule.Blasted | falling_sand_game/elements/mod/new_elements_a.py:77-92 | a partial sweep of the blast square keeps the board's shape |
| ExplosiveRule.BlastedAt | falling_sand_game/elements/mod/new_elements_a.py:77-92 | after a partial sweep, a swept cell holds fire exactly when it fires and every other cell is unchanged |
| ExplosiveRule.Blast | falling_sand_game/elements/mod/new_elements_a.py:77-92 | the blast keeps the board's shape |
| ExplosiveRule.RadiusBound | falling_sand_game/elements/mod/new_elements_a.py:77-81 | an offset within the circular radius also lies within the square the loops sweep |
| ExplosiveRule.BlastCellM | falling_sand_game/elements/mod/new_elements_a.py:80-92 | one inner-loop visit advances the grid from the sweep before the cell to the sweep after it |
| ExplosiveRule.BlastRowM | falling_sand_game/elements/mod/new_elements_a.py:78-92 | the inner loop advances the grid from the start of one row of the square to the start of the next |
| ExplosiveRule.BlastM | falling_sand_game/elements/mod/new_elements_a.py:77-92 | the grid afterwards shows the board `Blast` gives, and no existing particle is touched |
| ExplosiveRule.ExplodeM | falling_sand_game/elements/mod/new_elements_a.py:73-92 | the grid afterwards shows the blast over the board with the element removed, and the element is processed |
| ExplosiveRule.Explosive | falling_sand_game/elements/mod/new_elements_a.py:55-97 | the explosive's update keeps the board's shape |
| ExplosiveRule.ExplosiveM | falling_sand_game/elements/mod/new_elements_a.py:55-97 | the grid afterwards shows the board `Explosive` gives, the element is processed, and no processed flag is cleared |
| ExplosiveRule.Bomb | falling_sand_game/elements/mod/new_elements_a.py:147-225 | the bomb's update keeps the board's shape |
| ExplosiveRule.BombM | falling_sand_game/elements/mod/new_elements_a.py:147-225 | the grid afterwards shows the board `Bomb` gives, the bomb is processed, and no processed flag is cleared |
| ExplosiveRule.FallExplodeM | falling_sand_game/elements/mod/new_elements_a.py:159-225 | the fall and the blast of a lit bomb end on the board `Bomb` gives, with the bomb processed |
| ExplosiveRule.IgnitesNear | falling_sand_game/elements/mod/new_elements_a.py:36-53 | the ignition test is exactly "some igniter among the eight neighbours" |
| ExplosiveRule.BlastAt | falling_sand_game/elements/mod/new_elements_a.py:77-92 | after the blast, a cell holds processed fire exactly when it is in the grid, within the radius, and empty or flammable but not fire (with fire registered); every other cell keeps its contents |
| ExplosiveRule.ExplosiveLights | falling_sand_game/elements/mod/new_elements_a.py:59-69 | an unlit explosive with an igniter beside it is lit, tagged, counted down to four in the same update and processed; without one, only the processed flag changes |
| ExplosiveRule.ExplosiveFuse | falling_sand_game/elements/mod/new_elements_a.py:68-93 | a lit explosive above one only counts down; at one or below its cell ends as fire (or empty) and the rest of the board is exactly the blast |
| ExplosiveRule.BombSameUpdate | falling_sand_game/elements/mod/new_elements_a.py:121-129 | because the constructor resets the timer to zero, a bomb explodes in the update that lights it, after falling one cell if that cell is empty |
| ExplosiveRule.DropClears | falling_sand_game/elements/mod/new_elements_a.py:194-205 | falling into an empty cell and then exploding leaves the board as if the bomb had been removed in place |
| ExplosiveRule.BombFalls | falling_sand_game/elements/mod/new_elements_a.py:159-225 | a bomb that does not explode changes only its own cell and the cell below it: a lit bomb above an empty cell moves down, processed; otherwise it stays, processed |
| FireRule.Product | falling_sand_game/elements/fire.py:46-51 | a burnt fuel only ever becomes ash, smoke, ember or fire |
| FireRule.Interact | falling_sand_game/elements/fire.py:25-74 | fire's reactions keep the board's shape and always leave it processed |
| FireRule.Settle | falling_sand_game/elements/fire.py:60-74 | the burn-out step keeps the board's shape and leaves the fire processed |
| FireRule.SettleM | falling_sand_game/elements/fire.py:60-74 | the burn-out step on the grid shows the board `Settle` gives |
| FireRule.InteractM | falling_sand_game/elements/fire.py:25-74 | the reactions on the grid show the board `Interact` gives, with the same random stream, and leave the fire processed |
| FireRule.BurnsOne | falling_sand_game/elements/fire.py:29-74 | apart from its own cell fire changes exactly the kindling 8-neighbour it hits, into the processed product of its fuel, and nothing else; then, on the 5% (after burning) or 15% roll, the fire becomes unprocessed ash on a further 40% roll or smoke otherwise, and else stays with its flag set |
| FireRule.BurnsWhen | falling_sand_game/elements/fire.py:29-60 | some cell besides the fire's own changes exactly when kindling lies among its 8 neighbours and the 45% roll succeeds |
| Flood.Nb | falling_sand_game/command.py:173 | each of the fill's four directions leads to an orthogonal neighbour |
| Flood.Flooded | falling_sand_game/command.py:175-181 | writing into a set of cells keeps the board's shape |
| Flood.Fill | falling_sand_game/command.py:160-196 | the breadth-first search writes a new element, with the current tags, into exactly the set of cells it reaches, leaves every other cell as it was, counts that set, and that set is closed under same-key orthogonal neighbours and is a search tree from the start |
| Flood.Round | falling_sand_game/command.py:175-196 | one round takes the head of the queue, fills it and explores its neighbours, keeping the search state |
| Flood.FillCell | falling_sand_game/command.py:178-181 | filling one cell adds it to the painted cells |
| Flood.Explore | falling_sand_game/command.py:184-196 | after the neighbour loop every same-key neighbour of the filled cell is visited, and the queue still holds exactly the visited cells not yet filled |
| Flood.Consider | falling_sand_game/command.py:185-196 | a neighbour in the grid, not yet visited, that shows the start's key is visited and queued |
| Flood.Pop | falling_sand_game/command.py:176 | taking the head of the queue moves it from the queue to the filled cells |
| Flood.Push | falling_sand_game/command.py:194-195 | queueing an unvisited cell keeps the queue equal to the visited cells not yet filled |
| Flood.Grow | falling_sand_game/command.py:193-195 | a same-key neighbour of a tree member joins the search tree one level deeper |
| Flood.PaintOne | falling_sand_game/command.py:179-180 | writing into one more cell keeps the board equal to the old board painted over the filled cells |
| Flood.Begin | falling_sand_game/command.py:160-161 | the search starts with the start cell alone visited and queued |
| Flood.Shrinks | falling_sand_game/command.py:175 | each round leaves fewer unfilled cells, so the search ends |
| Flood.Done | falling_sand_game/command.py:175 | when the queue is empty every visited cell is filled, and the filled set is closed |
| Flood.PaintedFlooded | falling_sand_game/command.py:175-196 | the board at the end is the old board flooded over the filled set |
| Flood.TreeInside | falling_sand_game/command.py:160-196 | every member of a search tree lies in every closed set that holds the start |
| Flood.Component | falling_sand_game/command.py:160-196 | the filled set is the least closed set holding the start, and every cell in it shows the start's key |
| Flood.Unique | falling_sand_game/command.py:160-196 | two searches from the same cell fill the same set |
| Flood.FloodedCells | falling_sand_game/command.py:175-181 | the fill gives each cell of the set the new element and leaves every other cell as it was |
| FrozenMetalRule.Interact | falling_sand_game/elements/mod/new_elements_a.py:427-443 | `run_interactions` always ends the update and keeps the board's shape |
| FrozenMetalRule.InteractM | falling_sand_game/elements/mod/new_elements_a.py:427-443 | the grid afterwards shows the board `Interact` gives, with the same random stream, and the element is processed |
| FrozenMetalRule.Thaws | falling_sand_game/elements/mod/new_elements_a.py:431-443 | exactly one roll is drawn and only the element's cell changes: it becomes metal with its tags on the 0.5% roll when 'M' is registered, and otherwise is only marked processed |
| FungusRule.Spread | falling_sand_game/elements/fungus.py:27-48 | none when two or more of the eight neighbours are fungus; otherwise each cell is an in-grid 8-neighbour holding unprocessed mud, plant or wood |
| FungusRule.Interact | falling_sand_game/elements/fungus.py:23-70 | fungus's reactions keep the board's shape and always leave it processed |
| FungusRule.Grow | falling_sand_game/elements/fungus.py:50-65 | the writes of one update keep the board's shape |
| FungusRule.GrowM | falling_sand_game/elements/fungus.py:50-65 | writing the spread and the spore on the grid shows the board `Grow` gives and keeps the fungus in its cell |
| FungusRule.SpreadM | falling_sand_game/elements/fungus.py:27-43 | the neighbour loop collects the same spread cells as `Spread` |
| FungusRule.RollsM | falling_sand_game/elements/fungus.py:45-60 | the rolls taken on the grid are those of `Rolls`, and neither chosen cell is the fungus's own |
| FungusRule.InteractM | falling_sand_game/elements/fungus.py:23-70 | the reactions on the grid show the board `Interact` gives, with the same random stream, and leave the fungus processed |
| FungusRule.InteractIs | falling_sand_game/elements/fungus.py:23-70 | an update writes the spread and the spore the rolls chose and then marks the fungus processed |
| FungusRule.Shape | falling_sand_game/elements/fungus.py:23-70 | an update writes at most one 8-neighbour besides the fungus's own cell |
| FungusRule.SpreadsOne | falling_sand_game/elements/fungus.py:23-70 | the fungus's own cell is only marked processed and at most one 8-neighbour changes: into processed fungus with the same tags, over unprocessed mud, plant or wood, and only when fewer than two neighbours are fungus; or, when ',' is registered, into an unprocessed spore with the same tags in an empty cell |
| FungusRule.SpreadsWhen | falling_sand_game/elements/fungus.py:45-60 | fungus spreads exactly when it has fewer than two fungus neighbours, an edible neighbour and the 0.5% roll succeeds; a spore is released only when it did not spread and some neighbour is empty |
| FuseRule.Interact | falling_sand_game/elements/fuse.py:20-44 | a fuse's reactions keep the board's shape and always leave it processed |
| FuseRule.InteractM | falling_sand_game/elements/fuse.py:20-44 | the reactions on the grid show the board `Interact` gives and leave the fuse processed |
| FuseRule.Ignites | falling_sand_game/elements/fuse.py:20-44 | a fuse becomes an unprocessed element of key 'B' with certainty exactly when an orthogonal neighbour is a heat source, and otherwise only takes its flag; no draw is made and no other cell changes |
| Game.RowOrder | falling_sand_game/game.py:90-95 | the row order of a tick has one entry per row |
| Game.Range | falling_sand_game/game.py:98 | `range(n)` has n entries |
| Game.RowVisits | falling_sand_game/game.py:100-101 | a row is visited cell by cell in its column order |
| Game.ListHeight | falling_sand_game/game.py:121-131 | the element list always has at least one screen row, and 16 fewer than the screen |
| Game.MaxOffset | falling_sand_game/game.py:139 | the largest scroll offset is never negative and leaves no room past the last item |
| Game.Scrolled | falling_sand_game/game.py:133-145 | the scroll offset after a selection is in range and, for a selection in the list, shows it |
| Game.NextIndex | falling_sand_game/game.py:194-198 | '+' gives an index in the list |
| Game.PrevIndex | falling_sand_game/game.py:199-203 | '-' gives an index in the list |
| Game.PageDown | falling_sand_game/game.py:204-207 | PageDown moves half a list height further, but never past the last offset and never back |
| Game.PageUp | falling_sand_game/game.py:208-211 | PageUp moves half a list height back, but never below 0 |
| Game.Clamp | falling_sand_game/game.py:77-78 | clamping puts a coordinate on the grid and leaves one already on it where it is |
| Game.BrushSlot | falling_sand_game/game.py:173-186 | placing writes a new element of the selected key with the current tags, and deleting, or a key that is not registered, empties the cell |
| Game.Stamp | falling_sand_game/game.py:222-235 | the cursor square keeps the board's shape |
| Game.Resized | falling_sand_game/game.py:61-72 | the grid of a resize has the new size |
| Game.RangeCount | falling_sand_game/game.py:98 | `range(n)` holds each of 0 to n-1 once and nothing else |
| Game.RowVisitsCount | falling_sand_game/game.py:97-101 | a row's visits hold a cell of the row as often as the column order holds its column |
| Game.SweepCount | falling_sand_game/game.py:97-101 | visiting distinct rows, each in a shuffled column order, visits a cell once per column occurrence in a visited row and never otherwise |
| Game.RowOrderCovers | falling_sand_game/game.py:90-95 | top-down or bottom-up, the row order lists every row exactly once |
| Game.SweepOnce | falling_sand_game/game.py:90-101 | a tick visits every cell of the grid exactly once and nothing outside it, whichever row order and column shuffles it uses |
| Game.NextPrev | falling_sand_game/game.py:194-203 | '-' undoes '+' and '+' undoes '-' |
| Game.ScrollSteady | falling_sand_game/game.py:141-145 | a selection already in view leaves the list where it is |
| Game.CursorCentred | falling_sand_game/game.py:224-228 | the cursor square holds the cursor, with (size-1)/2 cells before it and size/2 after it |
| Game.StampTwice | falling_sand_game/game.py:222-235 | applying the same brush twice at the same place is applying it once |
| Game.RecreatedKeeps | falling_sand_game/game.py:65-72 | re-creating an element by its key keeps its key and tags and gives everything else the class defaults |
| Game.EmberBecomesBomb | falling_sand_game/game.py:65-72 | when 'B' is registered to the bomb, a resize turns every ember into a bomb |
| Game.RecreatedTwice | falling_sand_game/game.py:65-72 | re-creating what was re-created changes nothing |
| Game.GrowShrink | falling_sand_game/game.py:47-81 | resizing up and back down to the old size gives the grid re-created in place; nothing of the old grid is lost on the way |
| Game.Game.constructor | falling_sand_game/game.py:15-45 | a new game has an empty grid of the game area (the screen height less one row, the scaled width, each at least 1), the cursor in the middle, size 1, the first item selected, no scroll and no tags |
| Game.Game.Tick | falling_sand_game/game.py:84-106 | one tick first clears every flag (the cleared board is the old one with every element unprocessed), then visits the rows in the order `RowOrder` gives for the registry and the clock, each row in a shuffled column order, and updates no particle twice, leaving each one it updates processed |
| Game.Game.Rows | falling_sand_game/game.py:97-106 | the row loop visits the rows in the given order, each in a permutation of its columns, updating each particle at most once |
| Game.Game.TickRow | falling_sand_game/game.py:98-106 | one row is visited in a permutation of its columns, and every particle updated is processed and updated once |
| Game.Game.VisitRow | falling_sand_game/game.py:100-106 | the column loop visits the row's cells in the given order |
| Game.Game.Visit | falling_sand_game/game.py:101-104 | a live, unprocessed particle in its own cell is updated once and becomes processed |
| Game.Game.SelectedClass | falling_sand_game/game.py:108-119 | the selected class is nothing for an empty list, the class of the selected key for an index in range, and otherwise the first item's, with the selection reset to 0 |
| Game.Game.AdjustScroll | falling_sand_game/game.py:133-145 | the scroll offset becomes `Scrolled` of the selection, and an empty list leaves it |
| Game.Game.ApplyCursor | falling_sand_game/game.py:222-235 | the cursor action writes the brush into exactly the in-grid cells of the cursor square |
| Game.Game.PaintRow | falling_sand_game/game.py:230-235 | one row of the cursor square gets the brush and nothing else changes |
| Game.Game.PaintCell | falling_sand_game/game.py:233-235 | one in-grid cell of the square gets the brush |
| Game.Game.HandleInput | falling_sand_game/game.py:148-219 | in command mode no key is handled and the cursor stays; otherwise 'q' stops the game, '/' enters command mode, the arrows and h/j/k/l move the cursor one cell stopping at the grid's edges, '[' and ']' change the cursor size within 1 to 10, '1' to '9' select that item when the list has it, '+' and '-' step the selection with wrap-around, PageDown and PageUp scroll half a list, an unknown key is not handled, and a cursor on the grid stays on it |
| Game.Game.Steer | falling_sand_game/game.py:159-219 | the cursor keys move the cursor one cell, stopping at the grid's edges, '[' and ']' resize it within 1 to 10, the list keys select, step or page the element list, an unknown key is not handled, and a cursor on the grid stays on it |
| Game.Game.Navigate | falling_sand_game/game.py:157-172 | the arrow and h/j/k/l keys move the cursor by one within the grid, and '[' and ']' change the cursor size within 1 to 10 |
| Game.Game.ListKey | falling_sand_game/game.py:187-211 | '+'/'=' and '-'/'_' step the selection with wrap-around, '1' to '9' select that item when it exists, PageDown and PageUp page the list, and every change of selection scrolls it into view |
| Game.Game.Choose | falling_sand_game/game.py:187-203 | the selection keys, as in `ListKey` |
| Game.Game.Edit | falling_sand_game/game.py:173-186 | the editing keys (space, delete, 'x', 'c') keep the game's invariant |
| Game.Game.Resize | falling_sand_game/game.py:47-81 | a resize takes the new screen size (at least 1), a new grid of the new game area holding the overlap of the old grid re-created by key with its tags, clamps the cursor onto it and resets the scroll |
| Game.Game.Adopt | falling_sand_game/game.py:74-81 | taking a new grid clamps the cursor onto it and resets the scroll |
| Game.Game.Copied | falling_sand_game/game.py:61-72 | the new grid of a resize is fresh and shows `Resized` of the old board |
| Game.Game.CopyRow | falling_sand_game/game.py:64-72 | one row of the copy re-creates the overlap's cells of that row |
| Game.Game.CopyCell | falling_sand_game/game.py:65-72 | one cell of the copy re-creates the old element, if any, by its key with its tags |
| GlassPowderRule.Interact | falling_sand_game/elements/mod/new_elements_a.py:344-366 | `run_interactions` keeps the board's shape, and when it does not end the update nothing changes |
| GlassPowderRule.InteractM | falling_sand_game/elements/mod/new_elements_a.py:344-366 | the grid afterwards shows the board `Interact` gives, with the same random stream; the powder is processed exactly when the update ended, and otherwise is still in its cell with its state |
| GlassPowderRule.Melts | falling_sand_game/elements/mod/new_elements_a.py:348-366 | the powder melts exactly when a heat source is among its eight neighbours and the 10% roll succeeds; only its own cell changes, into glass with its tags (or just marked processed when 'X' is unregistered); without heat nothing is drawn |
| GlassPowderRule.AnyHeat | falling_sand_game/elements/mod/new_elements_a.py:352-356 | a heat source that is already processed melts the powder as well |
| GooRule.Interact | falling_sand_game/elements/mod/new_elements_a.py:459-483 | `run_interactions` keeps the board's shape, never ends the update and leaves the goo's own cell untouched |
| GooRule.InteractM | falling_sand_game/elements/mod/new_elements_a.py:459-483 | the grid afterwards shows the board `Interact` gives, with the same random stream, and the goo is still unprocessed in its cell with its state |
| GooRule.SticksOne | falling_sand_game/elements/mod/new_elements_a.py:464-481 | at most one cell changes: a stickable orthogonal neighbour, which keeps its kind and state except for the appended "stuck_to_goo" tag and stays unprocessed |
| GooRule.SticksWhen | falling_sand_game/elements/mod/new_elements_a.py:464-481 | the board changes exactly when the 40% roll succeeds and some orthogonal neighbour is present, not static, not goo and unprocessed; the roll is drawn either way |
| GooRule.TagRepeats | falling_sand_game/elements/mod/new_elements_a.py:481 | the tag is appended again to a neighbour that already carries it |
| Grids.Blank | falling_sand_game/grid.py:12 | the fresh board has the requested height and width and every cell empty |
| Grids.Grid.constructor | falling_sand_game/grid.py:6-13 | a grid of positive dimensions starts with those dimensions, no particles, and every cell empty |
| Grids.Grid.Make | falling_sand_game/grid.py:6-13 | no grid is made exactly when a dimension is not positive (the `ValueError`); otherwise a fresh grid of those dimensions shows the empty board |
| Grids.Grid.GetElement | falling_sand_game/grid.py:56-60 | returns the cell's particle inside the grid and nothing outside it |
| Grids.Grid.SetElement | falling_sand_game/grid.py:62-83 | succeeds exactly inside the grid; then writes that one cell and stamps the particle with the cell's coordinates; no other cell and no state changes |
| Grids.Grid.CreateElement | falling_sand_game/grid.py:17-42 | no particle for an unregistered key; otherwise a fresh unplaced particle of the registered class at the given coordinates, in its initial state with the given tags |
| Grids.Grid.Peek | falling_sand_game/grid.py:52-60 | returns what the board shows at that cell, nothing when it is off the grid |
| Grids.Grid.Place | falling_sand_game/grid.py:62-83 | writing a new particle into a cell shows the board with that slot set to the new particle's kind and state |
| Grids.Grid.ClearCell | falling_sand_game/grid.py:62-83 | writing nothing into a cell shows the board with that slot empty (off the grid, unchanged) |
| Grids.Grid.Restate | falling_sand_game/grid.py:62-83 | changing the state of a cell's particle shows the board with that slot's state replaced |
| Grids.Grid.MarkAt | falling_sand_game/elements/base.py:47-48 | marking a cell's particle processed shows the board with that slot marked |
| Grids.Grid.Retire | falling_sand_game/elements/base.py:47-48 | marking an off-grid particle processed leaves the board as it was |
| Grids.Grid.Relocate | falling_sand_game/elements/base.py:87-96 | the particle moves to the target cell over whatever is there, marked processed, its old cell left empty |
| Grids.Grid.MoveTo | falling_sand_game/elements/base.py:87-96 | `_move_to` succeeds exactly when the target holds nothing; then the particle has moved and is processed, otherwise nothing changed |
| Grids.Grid.SwapWith | falling_sand_game/elements/base.py:65-84 | `_swap_with` exchanges the two cells, the mover marked processed and the other particle's flag kept |
| Grids.Grid.Exchange | falling_sand_game/elements/base.py:74-84 | the two writes of the swap between two distinct live particles exchange their cells and keep the other particle's flag |
| Grids.Grid.TakeOver | falling_sand_game/elements/base.py:74 | the first write of the swap puts the target in the mover's cell |
| Grids.Grid.GoTo | falling_sand_game/elements/base.py:75-84 | the second write of the swap puts the mover, processed, in its new cell |
| Grids.Grid.Clear | falling_sand_game/grid.py:85-90 | `clear` leaves every cell empty and the dimensions as they were |
| Grids.Grid.ClearRow | falling_sand_game/grid.py:90 | one row of the clear emptied |
| Grids.Grid.ResetProcessed | falling_sand_game/grid.py:92-98 | every particle on the grid is unprocessed afterwards, and the cells and all other state are unchanged |
| Grids.Grid.UnmarkRow | falling_sand_game/grid.py:95-98 | one row of the flag reset done |
| Grids.Grid.UnmarkCell | falling_sand_game/grid.py:96-98 | one visit of the flag reset done |
| Grids.Grid.GetAllElements | falling_sand_game/grid.py:100-106 | the particles of exactly the occupied cells in row-major order, one for one |
| Grids.Grid.ListRow | falling_sand_game/grid.py:103-106 | the particles of one row's occupied cells in order |
| GunpowderRule.Interact | falling_sand_game/elements/gunpowder.py:23-61 | `run_interactions` always ends the update and keeps the board's shape |
| GunpowderRule.InteractM | falling_sand_game/elements/gunpowder.py:23-61 | the grid afterwards shows the board `Interact` gives, with the same random stream, and the gunpowder is processed |
| GunpowderRule.Explodes | falling_sand_game/elements/gunpowder.py:27-61 | with a heat source among the eight neighbours and the 90% roll, the gunpowder's cell becomes processed fire and every orthogonal cell that is empty or holds an unprocessed flammable non-fire element does too, the rest unchanged; otherwise only the processed flag changes; without heat nothing is drawn |
| IceRule.Interact | falling_sand_game/elements/ice.py:22-68 | ice's reactions keep the board's shape and always leave it processed |
| IceRule.InteractM | falling_sand_game/elements/ice.py:22-68 | the reactions on the grid show the board `Interact` gives, with the same random stream, and leave the ice processed |
| IceRule.Melts | falling_sand_game/elements/ice.py:22-68 | ice melts exactly when an orthogonal heat source is beside it and the 10% roll succeeds; only then does anything but its flag change: it becomes what key 'W' makes, and the first heat source found, when unprocessed and its 70% (ember) or 10% (fire) roll succeeds, becomes processed ash or smoke, or empty when that key is not registered; otherwise it is left as it was, and no other cell changes; without a heat source nothing is drawn |

| LavaRule.Cell | falling_sand_game/elements/lava.py:18 | the neighbour checked n-th is one of the four orthogonal ones |
| LavaRule.Interact | falling_sand_game/elements/lava.py:20-76 | lava's reactions keep the board's shape |
| LavaRule.ScoutIn | falling_sand_game/elements/lava.py:29-32 | what the neighbour loop stops at lies on the board |
| LavaRule.ScoutFirst | falling_sand_game/elements/lava.py:29-74 | the loop stops at the first unprocessed water or ice in check order, or earlier at unprocessed tinder whose 30% roll succeeded; with no stop, no neighbour is unprocessed water or ice |
| LavaRule.ScoutM | falling_sand_game/elements/lava.py:29-74 | the neighbour loop on the grid gives what `Scout` gives |
| LavaRule.InteractM | falling_sand_game/elements/lava.py:20-76 | the reactions on the grid show the board `Interact` gives, with the same random stream; the lava is processed exactly when it turned to stone |
| LavaRule.Reacts | falling_sand_game/elements/lava.py:20-76 | at most one orthogonal neighbour reacts and no other cell changes: water makes the lava unprocessed stone and itself processed steam; ice makes the lava unprocessed stone and itself unprocessed water; tinder becomes processed fire and the lava is left to flow; with none, nothing changes and the lava is left to flow |
| Movement.DisplaceStrict | falling_sand_game/elements/base.py:55-63 | no element displaces one of its own density, and no two elements can displace each other |
| Movement.DiagTry | falling_sand_game/elements/base.py:171-197 | one diagonal direction is a candidate exactly when its target is open for the mover and its side cell is clear, and it is a swap exactly when the target is occupied |
| Movement.FallSpec | falling_sand_game/elements/base.py:144-210 | the fall takes the cell straight ahead when it is open, otherwise one diagonal with a clear side cell; it moves exactly when one of those is open and otherwise leaves the board unchanged |
| Movement.ProbeSpec | falling_sand_game/elements/base.py:284-293 | the first direction of the horizontal probe stops at the first cell that is not empty: a swap there if the mover takes it, otherwise the farthest empty cell before it, or nothing; it records running off the grid |
| Movement.ReprobeSpec | falling_sand_game/elements/base.py:296-310 | the second direction only adds a swap, or, when the first found nothing, the empty cell right beside the mover |
| Movement.ReprobeFrom | falling_sand_game/elements/base.py:298-310 | the second direction from any distance keeps one of those three outcomes |
| Movement.ProbeAims | falling_sand_game/elements/base.py:284-293 | the first direction only ever points at an empty cell for a move or a cell it takes for a swap, never the mover's own, and stays in the row |
| Movement.ReprobeAims | falling_sand_game/elements/base.py:298-310 | the second direction keeps that property |
| Movement.SweepExec | falling_sand_game/elements/base.py:276-318 | the horizontal flow points at a cell the mover may enter in its own row, and moves exactly when the probe found a target, since its `_move_to` never meets an occupied cell |
| Movement.ExecMoves | falling_sand_game/elements/base.py:313-318 | carrying out a well-aimed probe draws nothing and either moves the mover into an open cell or changes nothing |
| Movement.LiquidMoveSpec | falling_sand_game/elements/base.py:233-318 | a liquid either moves into a cell open for it or leaves the board unchanged |
| Movement.Dissipates | falling_sand_game/elements/base.py:424-429 | steam and fire never dissipate at the top edge (their overrides do nothing) and draw nothing; every other gas makes one draw |
| Movement.RiseEdge | falling_sand_game/elements/base.py:350-355 | a rise that runs off the grid passed only empty cells up to the top row |
| Movement.GasMoveSpec | falling_sand_game/elements/base.py:340-410 | a gas stays put, moves into a cell open for it, or, only when its rise runs off the top and never for steam or fire, vanishes; an open cell right above is always left |
| Movement.RiseOpen | falling_sand_game/elements/base.py:350-363 | a rise whose first cell is open finds a target |
| Movement.ProbeCan | falling_sand_game/elements/base.py:284-293 | once a probe has a target it keeps one |
| Movement.DiagTryM | falling_sand_game/elements/base.py:171-197 | one diagonal direction read off the grid gives what `DiagTry` gives |
| Movement.FirstPickM | falling_sand_game/elements/base.py:167-198 | the loop over the shuffled diagonal directions stops at the first candidate `FirstPick` gives |
| Movement.GoM | falling_sand_game/elements/base.py:199-205 | the mover goes into the target by `_move_to` when it is empty and by `_swap_with` otherwise, processed |
| Movement.FallM | falling_sand_game/elements/base.py:144-210 | the fall on the grid shows the board `Fall` gives, with the same random stream; the mover is processed exactly when it moved and is otherwise unchanged |
| Movement.ProbeM | falling_sand_game/elements/base.py:284-293 | the first direction's loop returns what `Probe` gives |
| Movement.ReprobeM | falling_sand_game/elements/base.py:296-310 | the second direction's loop returns what `Reprobe` gives |
| Movement.SweepM | falling_sand_game/elements/base.py:276-310 | both loops of the horizontal probe return what `Sweep` gives |
| Movement.ExecM | falling_sand_game/elements/base.py:313-318 | carrying out the probe on the grid shows the board `Exec` gives; the mover is processed exactly when it moved |
| Movement.LiquidMoveM | falling_sand_game/elements/base.py:233-318 | liquid movement on the grid shows the board `LiquidMove` gives, with the same random stream; the liquid is processed exactly when it moved |
| Movement.GasMoveM | falling_sand_game/elements/base.py:340-410 | gas movement on the grid shows the board `GasMove` gives, with the same random stream; the gas is processed exactly when it moved or vanished |
| Oracle.Next | falling_sand_game/elements/base.py:427 | a draw advances the stream by one and keeps its values |
| Oracle.Chance | falling_sand_game/elements/base.py:427 | `random.random() < p` is one draw, true exactly when the draw in thousandths is below p; it is never true for 0 and always true for 1 |
| Oracle.Pick | falling_sand_game/elements/ember.py:41 | `random.choice` over n items gives an index below n with one draw |
| Oracle.FirstSide | falling_sand_game/elements/base.py:169 | the shuffle of the two diagonal sides yields -1 or 1 first, with one draw |
| Oracle.Side | falling_sand_game/elements/base.py:278 | `random.choice([-1, 1])` gives -1 or 1 with one draw |
| Oracle.Swap | falling_sand_game/game.py:99 | exchanging two items swaps them and keeps every other position |
| Oracle.SwapPerm | falling_sand_game/game.py:99 | an exchange is a permutation |
| Oracle.ShuffleDown | falling_sand_game/game.py:99 | the shuffle loop keeps the length and makes one draw per step |
| Oracle.Shuffle | falling_sand_game/game.py:99 | `random.shuffle` keeps the length and makes one draw per item after the first |
| Oracle.ShuffleDownPerm | falling_sand_game/game.py:99 | the shuffle loop loses and adds no item |
| Oracle.ShufflePerm | falling_sand_game/game.py:99 | a shuffle is a permutation |
| Oracle.ShuffleM | falling_sand_game/game.py:99 | the in-place shuffle loop gives what `Shuffle` gives |
| PhotosensitiveRule.Update | falling_sand_game/elements/photosensitive_powder.py:42-130 | the update always ends processed and keeps the board's shape |
| PhotosensitiveRule.Within | falling_sand_game/elements/photosensitive_powder.py:33-38 | an offset within the range in Euclidean distance lies within the window's half-width |
| PhotosensitiveRule.LitAnywhere | falling_sand_game/elements/photosensitive_powder.py:31-40 | clipping the window to the grid loses nothing: the powder is lit exactly when some light source anywhere on the board reaches it within its own radius and the range |
| PhotosensitiveRule.CheckLightM | falling_sand_game/elements/photosensitive_powder.py:31-40 | the window loops return exactly whether the powder is lit |
| PhotosensitiveRule.UpdateM | falling_sand_game/elements/photosensitive_powder.py:42-130 | the grid afterwards shows the board `Update` gives, with the same random stream; the powder is processed and no processed flag is cleared |
| PhotosensitiveRule.Hardens | falling_sand_game/elements/photosensitive_powder.py:46-130 | lit, the powder stays in its cell, processed, solidified with its tags, made static, non-powder and wall-dense when it was not already; unlit, a solidified powder turns back into a movable powder of density 4.5, and then either stays processed or makes one powder step down or diagonally down |
| PlantRule.InGrow | falling_sand_game/elements/plant.py:44-48 | every growth spot is an empty in-grid cell above or beside the plant |
| PlantRule.Interact | falling_sand_game/elements/plant.py:24-60 | a plant's reactions keep the board's shape and always leave it processed |
| PlantRule.SourceM | falling_sand_game/elements/plant.py:29-37 | the look below finds a source exactly when the cell below holds water or mud |
| PlantRule.InteractM | falling_sand_game/elements/plant.py:24-60 | the reactions on the grid show the board `Interact` gives, with the same random stream, and leave the plant processed |
| PlantRule.GrowsOne | falling_sand_game/elements/plant.py:24-60 | the plant only takes its flag, and at most one other cell changes: an empty cell above or beside it gets a processed new plant; without water or mud below nothing else changes and nothing is drawn |
| PlantRule.GrowsWhen | falling_sand_game/elements/plant.py:24-60 | some cell besides the plant's own changes exactly when water or mud lies directly below, some cell above, left or right is empty, and the 0.3% roll succeeds |
| RadioactiveRule.Mutation | falling_sand_game/elements/radioactive.py:39-60 | a mutation only ever makes virus 'V' or fungus 'f' |
| RadioactiveRule.Interact | falling_sand_game/elements/radioactive.py:23-77 | the reactions keep the board's shape |
| RadioactiveRule.MutationM | falling_sand_game/elements/radioactive.py:39-60 | the mutation loop on the grid gives what `Mutation` gives and never picks the element's own cell |
| RadioactiveRule.InteractM | falling_sand_game/elements/radioactive.py:23-77 | the reactions on the grid show the board `Interact` gives, with the same random stream; the element is processed exactly when it decayed |
| RadioactiveRule.DecaysOrMutates | falling_sand_game/elements/radioactive.py:23-77 | the element decays exactly on the 0.1% roll: only its own cell changes, into unprocessed metal with its tags (or, with no 'M' registered, only its flag set); otherwise it stays as it is and at most one mutable 8-neighbour becomes processed virus or fungus with that neighbour's tags |
| RadioactiveRule.MutatesWhen | falling_sand_game/elements/radioactive.py:40-60 | without decay, a target is chosen exactly when the 0.5% roll succeeds and a mutable 8-neighbour exists; the board changes exactly when a target is chosen and its drawn key is registered, and then the target holds a processed virus or fungus with the target's tags |
| ElementManager.Registered | falling_sand_game/element_manager.py:89-117 | the registry the scan builds never holds the blank key |
| ElementManager.Prefix | falling_sand_game/element_manager.py:131 | the filtered priority list holds exactly the listed keys that are registered |
| ElementManager.Manager.constructor | falling_sand_game/element_manager.py:36-46 | a new manager has an empty registry and placeable order and is not loaded |
| ElementManager.Manager.LoadElements | falling_sand_game/element_manager.py:53-142 | loading twice changes nothing; a missing directory leaves an empty registry; otherwise the registry is the one the found classes build and the placeable order is the filtered priority list followed by every other registered key |
| ElementManager.Manager.RegisterAll | falling_sand_game/element_manager.py:89-117 | the registration loop builds `Registered` of the found classes |
| ElementManager.Manager.BuildPlaceable | falling_sand_game/element_manager.py:131-138 | the placeable order is the filtered priority list, then each other registered key once |
| ElementManager.Manager.Filter | falling_sand_game/element_manager.py:131 | the filtering loop gives `Prefix` |
| ElementManager.Manager.GetElementClass | falling_sand_game/element_manager.py:145-147 | a key gives its class exactly when it is registered |
| ElementManager.Lookup | falling_sand_game/element_manager.py:145-147 | `registry.get` gives the class exactly for a registered key |
| ElementManager.RegisteredIff | falling_sand_game/element_manager.py:113-117 | a key is registered exactly when some found class registers it |
| ElementManager.RegisteredLast | falling_sand_game/element_manager.py:113-117 | a registered key holds the class of the last found class with that key |
| ElementManager.NeverBlank | falling_sand_game/element_manager.py:115 | the blank key and missing keys never reach the registry |
| ElementManager.Overwrites | falling_sand_game/element_manager.py:113-116 | a later class with the same key replaces an earlier one |
| ElementManager.PrefixInOrder | falling_sand_game/element_manager.py:131 | filtering keeps the priority list's order |
| ElementManager.OriginalDistinct | falling_sand_game/element_manager.py:20-23 | the priority list names each key once |
| ElementManager.DistinctSnoc | falling_sand_game/element_manager.py:135-138 | appending a key not yet listed keeps the list free of repeats |
| ElementManager.PrefixDistinct | falling_sand_game/element_manager.py:131 | filtering keeps a list free of repeats |
| ElementManager.SkipsHead | falling_sand_game/element_manager.py:131 | a subsequence of the tail is a subsequence of the whole |
| ElementManager.PlaceableOnce | falling_sand_game/element_manager.py:131-138 | the placeable order lists every registered key exactly once, starting with the registered keys of the priority list in its order |
| SaltRule.Interact | falling_sand_game/elements/salt.py:19-43 | salt's reactions keep the board's shape, and when they leave it unprocessed they change nothing |
| SaltRule.InteractM | falling_sand_game/elements/salt.py:19-43 | the reactions on the grid show the board `Interact` gives, with the same random stream; the salt is processed exactly when it dissolved |
| SaltRule.Dissolves | falling_sand_game/elements/salt.py:19-43 | salt dissolves exactly when unprocessed water is orthogonally beside it and the 50% roll succeeds: only its own cell changes, into unprocessed water without tags (or, with no 'W' registered, only its flag set); without water nothing is drawn |
| Saves.Restored | falling_sand_game/command.py:370-428 | `_dict_to_grid` refuses a dictionary exactly when its height, width or element list is missing or the size is not positive; otherwise the grid has the saved size |
| Saves.ApplyAll | falling_sand_game/command.py:383-426 | applying the records keeps the board's shape |
| Saves.LastAt | falling_sand_game/command.py:383-424 | the record that decides a cell is usable and names that cell |
| Saves.Reloaded | falling_sand_game/command.py:370-428 | the reloaded board keeps the saved board's shape |
| Saves.GridToDict | falling_sand_game/command.py:338-368 | `_grid_to_dict` writes the size and one record per occupied cell in row-major order, as `Serialized` says |
| Saves.SavedNext | falling_sand_game/command.py:346-347 | the records down to a row are those above it and then the row's own |
| Saves.SaveRow | falling_sand_game/command.py:347-367 | the column loop appends the records of one row |
| Saves.SaveCell | falling_sand_game/command.py:348-367 | one occupied cell appends its record: key, position, tags, and the burning or solidified extras of thermite and photosensitive powder |
| Saves.DictToGrid | falling_sand_game/command.py:370-428 | `_dict_to_grid` gives no grid exactly for a rejected dictionary, and otherwise a new grid showing the restored board |
| Saves.LoadEntry | falling_sand_game/command.py:384-426 | one record is skipped when a field is missing or its key is not registered, and otherwise writes a new element with its tags and extras at its coordinates |
| Saves.Restore | falling_sand_game/command.py:396-421 | a new element takes the record's tags and extras |
| Saves.RestoreBurning | falling_sand_game/command.py:402-405 | thermite takes its burning state and timer, and is a heat source exactly when burning |
| Saves.RestoreSolidified | falling_sand_game/command.py:406-418 | photosensitive powder takes its solidified state, with the static, powder and density fields that go with it |
| Saves.RecordOf | falling_sand_game/command.py:349-367 | the record of an element is the record of the slot that shows it |
| Saves.KeysOfExtras | falling_sand_game/command.py:361-365 | only thermite has thermite's key and only photosensitive powder has its key |
| Saves.LastAtAppend | falling_sand_game/command.py:383-424 | a later record for a cell overrides an earlier one |
| Saves.ApplyAllCell | falling_sand_game/command.py:383-426 | restoring writes into each cell the last usable record naming it, and leaves a cell no record names empty |
| Saves.LastAtOne | falling_sand_game/command.py:389-396 | a single record decides exactly its own cell, if it is usable |
| Saves.RowLast | falling_sand_game/command.py:347-367 | the records of a row name each of its occupied cells with a registered key once, by its own record |
| Saves.RowLastStep | falling_sand_game/command.py:347-367 | one more cell of the row keeps that property |
| Saves.RowsLast | falling_sand_game/command.py:346-367 | the records of the rows above a row name each occupied cell there with a registered key once, by its own record |
| Saves.RowsLastStep | falling_sand_game/command.py:346-367 | one more row keeps that property |
| Saves.SaveLoad | falling_sand_game/command.py:338-428 | restoring a saved grid is accepted, has the same size, and rebuilds every occupied cell from its own record (cells of unregistered keys stay empty) |
| Saves.ReloadedCell | falling_sand_game/command.py:394-424 | an element rebuilt from its record keeps its key and tags and, for thermite, the burning state and timer, and for photosensitive powder, the solidified state and its fields; it is unprocessed |
| Saves.ReloadedEntry | falling_sand_game/command.py:338-428 | a rebuilt element writes the record it was rebuilt from |
| Saves.SaveLoadSave | falling_sand_game/command.py:338-428 | saving a restored grid gives back the dictionary it was restored from, when every key on it is registered to its own class |
| Saves.SameRows | falling_sand_game/command.py:346-367 | the rows of the reloaded board write the same records as the saved board's |
| Saves.SameRow | falling_sand_game/command.py:347-367 | one row of the reloaded board writes the same records as the saved row |
| SeedRule.Interact | falling_sand_game/elements/seed.py:21-61 | a seed's reactions keep the board's shape and always leave it processed, so it never falls |
| SeedRule.ReadyM | falling_sand_game/elements/seed.py:25-48 | the looks below and above find water or mud below and an empty cell or the top edge above |
| SeedRule.InteractM | falling_sand_game/elements/seed.py:21-61 | the reactions on the grid show the board `Interact` gives, with the same random stream, and leave the seed processed |
| SeedRule.Sprouts | falling_sand_game/elements/seed.py:21-61 | only the seed's cell changes: with water or mud below, room above and the 0.8% roll it becomes an unprocessed plant, and otherwise only its flag is set; it draws once when ready and not at all otherwise |
| SingularityRule.Consume | falling_sand_game/elements/singularity.py:26-38 | the consumption loop keeps the board's shape and, over offsets that leave out the centre, never touches the singularity's own cell |
| SingularityRule.Tug | falling_sand_game/elements/singularity.py:45-80 | one visit of the pull loop keeps the board's shape and never touches the singularity's own cell |
| SingularityRule.Row | falling_sand_game/elements/singularity.py:44-80 | the inner pull loop keeps the board's shape and never touches the singularity's own cell |
| SingularityRule.Rows | falling_sand_game/elements/singularity.py:43-80 | the outer pull loop keeps the board's shape and never touches the singularity's own cell |
| SingularityRule.Pull | falling_sand_game/elements/singularity.py:40-80 | the pull phase over the clipped window keeps the board's shape and never touches the singularity's own cell |
| SingularityRule.Update | falling_sand_game/elements/singularity.py:21-86 | the update always ends processed, keeps the board's shape, and of the singularity's own cell changes only the processed flag |
| SingularityRule.BiteM | falling_sand_game/elements/singularity.py:29-38 | one pass of the consumption loop leaves the rest of the loop with the same final result |
| SingularityRule.ConsumeM | falling_sand_game/elements/singularity.py:26-38 | the consumption loops end on the board, flag and random stream `Consume` gives, with the singularity untouched |
| SingularityRule.Drag | falling_sand_game/elements/singularity.py:75-77 | the pulled particle is moved over whatever the target holds, and the singularity stays where it is |
| SingularityRule.TugM | falling_sand_game/elements/singularity.py:45-80 | one visit of the pull loop ends on the board and random stream `Tug` gives |
| SingularityRule.RowM | falling_sand_game/elements/singularity.py:44-80 | the inner pull loop ends on the board and random stream `Row` gives |
| SingularityRule.PullM | falling_sand_game/elements/singularity.py:40-80 | the pull phase ends on the board and random stream `Pull` gives |
| SingularityRule.UpdateM | falling_sand_game/elements/singularity.py:21-86 | the grid afterwards shows the board `Update` gives, with the same random stream; the singularity is processed and no processed flag is cleared |
| SingularityRule.SwallowStep | falling_sand_game/elements/singularity.py:34-37 | emptying one prey cell of the inner square keeps the "only prey swallowed" property |
| SingularityRule.SwallowsOnly | falling_sand_game/elements/singularity.py:26-38 | the consumption phase changes only cells of the 3 by 3 square, each from an unprocessed non-static non-singularity element to empty |
| SingularityRule.Swallowed | falling_sand_game/elements/singularity.py:36 | a swallowed cell is never refilled by a later step of the phase, so the board differs |
| SingularityRule.SwallowsIff | falling_sand_game/elements/singularity.py:26-42 | `consumed_something` is set exactly when the consumption phase changed the board |
| SingularityRule.TugStep | falling_sand_game/elements/singularity.py:45-80 | an unprocessed movable element outside the inner square and within radius seven takes one draw; on the 40% roll, when the cell one step toward the singularity is on the grid and empty or a singularity, it moves there, strictly closer and marked processed; in every other case the board is unchanged |
| SingularityRule.AxisStep | falling_sand_game/elements/singularity.py:56-64 | the step toward the singularity never increases the distance on either axis and shrinks it on an axis where they differ |
| SingularityRule.TugWithin | falling_sand_game/elements/singularity.py:49-80 | one pull changes only cells within the pull radius |
| SingularityRule.RowWithin | falling_sand_game/elements/singularity.py:44-80 | the inner pull loop changes only cells within the pull radius |
| SingularityRule.RowsWithin | falling_sand_game/elements/singularity.py:43-80 | the outer pull loop changes only cells within the pull radius |
| SingularityRule.SwallowsOrPulls | falling_sand_game/elements/singularity.py:21-86 | the singularity stays, processed; when something was swallowed, every other changed cell is in the inner square and was prey now empty; otherwise the pull phase runs, on the random stream the consumption phase left, and changes only cells within the pull radius |
| SingularityRule.ConsumeExact | falling_sand_game/elements/singularity.py:21-38 | in the consumption loop each prey cell, in loop order, takes one draw; it is emptied exactly when its 80% draw succeeds, nothing else changes, and a swallow is reported exactly when one of those draws succeeds |
| SingularityRule.SwallowsWhen | falling_sand_game/elements/singularity.py:21-86 | something is swallowed exactly when one of the prey cells' 80% draws succeeds, and then the update empties exactly those prey cells and changes nothing else but the singularity's flag; the pull phase starts after one draw per prey cell |
| SmokeRule.Interact | falling_sand_game/elements/smoke.py:17-29 | smoke's reactions keep the board's shape and always leave it processed |
| SmokeRule.InteractM | falling_sand_game/elements/smoke.py:17-29 | the reactions on the grid show the board `Interact` gives and leave the smoke processed |
| SmokeRule.Fades | falling_sand_game/elements/smoke.py:17-29 | only the smoke's own cell changes, with one draw: it is emptied exactly on the 2% roll and otherwise keeps the smoke with its flag set |
| SporeRule.Interact | falling_sand_game/elements/spore.py:20-51 | a spore's reactions keep the board's shape, and when they leave it unprocessed they change nothing |
| SporeRule.InteractM | falling_sand_game/elements/spore.py:20-51 | the reactions on the grid show the board `Interact` gives, with the same random stream; the spore is processed exactly when it vanished or grew |
| SporeRule.GrowCheckAround | falling_sand_game/elements/spore.py:31-39 | the growth check finds ground exactly when some orthogonal neighbour is ground fungus grows on |
| SporeRule.Grows | falling_sand_game/elements/spore.py:20-51 | the spore acts exactly when the 0.5% roll empties its cell, or it is beside ground fungus grows on and the 1% roll succeeds, turning it into unprocessed fungus with its tags; only its own cell changes |
| SteamRule.Interact | falling_sand_game/elements/steam.py:21-52 | steam's reactions keep the board's shape and always leave it processed |
| SteamRule.InteractM | falling_sand_game/elements/steam.py:21-52 | the reactions on the grid show the board `Interact` gives, with the same random stream, and leave the steam processed |
| SteamRule.Condenses | falling_sand_game/elements/steam.py:25-32 | on the 0.5% roll only the steam's own cell changes, into unprocessed water |
| SteamRule.CoolsOne | falling_sand_game/elements/steam.py:34-52 | without condensing, the steam only takes its flag and at most one orthogonal neighbour changes: an unprocessed element keyed 'B' becomes processed ash |
| SteamRule.CoolsOnHit | falling_sand_game/elements/steam.py:34-52 | without condensing, some cell besides the steam's own changes exactly when an ember is hit, and the hit ember becomes processed ash |
| SteamRule.CoolsWhen | falling_sand_game/elements/steam.py:34-52 | without condensing, each unprocessed orthogonal ember in turn takes its own 5% draw; some cell besides the steam's own changes exactly when one of those draws succeeds, and the ember with the first success becomes processed ash |
| SteamRule.NoEmber | falling_sand_game/elements/steam.py:34-52 | with no unprocessed ember beside it, steam that does not condense only takes its flag and makes no draw beyond the condensing roll |
| ThermiteRule.Interact | falling_sand_game/elements/thermite.py:35-84 | thermite's reactions change only its own cell and, when they leave it unprocessed, keep it in that cell |
| ThermiteRule.Burn | falling_sand_game/elements/thermite.py:39-57 | the burning branch changes only the thermite's cell and draws nothing |
| ThermiteRule.Kindle | falling_sand_game/elements/thermite.py:59-82 | the ignition branch changes only the thermite's cell and never finishes it |
| ThermiteRule.WarmthM | falling_sand_game/elements/thermite.py:61-73 | the heat loop on the grid gives `Warmth` over the four checks |
| ThermiteRule.BurnM | falling_sand_game/elements/thermite.py:39-57 | the burning branch on the grid shows the board `Burn` gives |
| ThermiteRule.KindleM | falling_sand_game/elements/thermite.py:59-82 | the ignition branch on the grid shows the board `Kindle` gives and leaves the thermite unprocessed in its cell |
| ThermiteRule.InteractM | falling_sand_game/elements/thermite.py:35-84 | the reactions on the grid show the board `Interact` gives, with the same random stream; the thermite is processed exactly when it burnt out |
| ThermiteRule.WarmthIsMax | falling_sand_game/elements/thermite.py:61-73 | the heat is the largest score among the neighbours checked, and 0 when there are none |
| ThermiteRule.HotEnough | falling_sand_game/elements/thermite.py:61-75 | the heat reaches the threshold 2 exactly when an orthogonal neighbour is a heat source that is fire, lava or burning thermite; embers alone never suffice |
| ThermiteRule.Ignites | falling_sand_game/elements/thermite.py:59-84 | unlit thermite changes exactly when a strong neighbour is beside it and the 60% roll succeeds; it then burns with timer 5, is a heat source and gains the tag "burning", and it is never finished, so it falls next |
| ThermiteRule.BurnsDown | falling_sand_game/elements/thermite.py:39-57 | burning thermite counts its timer down by one without a draw; it burns out, into unprocessed metal with its tags, exactly when the timer was at most 1, and otherwise stays a burning heat source |
| VirusRule.Interact | falling_sand_game/elements/virus.py:21-45 | a virus's reactions keep the board's shape and always leave it processed |
| VirusRule.InteractM | falling_sand_game/elements/virus.py:21-45 | the reactions on the grid show the board `Interact` gives, with the same random stream, and leave the virus processed |
| VirusRule.SpreadsOne | falling_sand_game/elements/virus.py:21-45 | the virus only takes its flag and at most one orthogonal cell changes, from empty to a processed virus without tags |
| VirusRule.SpreadsWhen | falling_sand_game/elements/virus.py:25-41 | a new virus appears exactly when some orthogonal cell is empty and the 2% roll succeeds |
| VoidRule.Update | falling_sand_game/elements/void.py:20-41 | a void's update keeps the board's shape and always leaves it processed |
| VoidRule.UpdateM | falling_sand_game/elements/void.py:20-41 | the update on the grid shows the board `Update` gives, with the same random stream, and leaves the void processed |
| VoidRule.DeletesOne | falling_sand_game/elements/void.py:20-41 | the void only takes its flag and at most one 8-neighbour changes: an unprocessed element that is neither wall nor void is deleted |
| VoidRule.DeletesWhen | falling_sand_game/elements/void.py:24-37 | some neighbour is deleted exactly when a consumable 8-neighbour exists and the 15% roll succeeds |
| WaterRule.Interact | falling_sand_game/elements/water.py:21-74 | water's reactions keep the board's shape, and when they leave it unprocessed they change nothing |
| WaterRule.InteractM | falling_sand_game/elements/water.py:21-74 | the reactions on the grid show the board `Interact` gives, with the same random stream; the water is processed exactly when it boiled |
| WaterRule.Boils | falling_sand_game/elements/water.py:21-74 | water boils exactly when an unprocessed orthogonal heat source is beside it and the 5% roll succeeds: it becomes processed steam, and the first such heat source, on its 60% (ember) or 10% (fire) roll with ash or smoke registered, becomes that processed product; otherwise it is left as it was, and no other cell changes; without one nothing is drawn |

## Left out

- Drawing, colours, the panels and `get_drawing_info`: presentation. The game width the screen layout derives from the screen width is a parameter of `Game.Game.constructor` and `Game.Game.Resize`.
- The terminal front end and its keystroke line editor: terminal I/O.
- The frame-timing loop and the commands `fps` and `speed`: they work in floating-point frame rates. `Commands.Processor.Process` answers nothing for them.
- The commands `help`, `info`, `save` and `load`: display, and file I/O through `os` and `json`. Only the dictionary form of a grid is modelled (`Saves`); `Commands.Processor.Process` answers nothing for these commands.
- `show_message` and the message texts: a command answers with a `Reply` instead.
- Splitting the command line with `shlex.split`: a command is modelled as its list of words.
- `int()` parsing beyond optional sign and decimal digits: surrounding whitespace and `_` separators are not accepted by `Commands.ParseInt`.
- `str.lower()`: modelled for ASCII letters only.
- The quick-save slots belong to the processor object in the model. In the source they are a class-level dictionary shared by every processor.
- The wall clock: the parity of the current second in a tick is a boolean parameter of `Game.Game.Tick`.
- The pseudo-random generator: its outputs are the explicit stream `Oracle.Rng`, and what `random` promises about their distribution is not modelled.
- Element discovery in the element manager (`os.walk`, `importlib`, `inspect`) and its `threading.Lock` singleton: reflection, I/O and concurrency. The discovered `(key, class)` list is an input of `ElementManager.Manager.LoadElements`.
- Which class wins a duplicated key: ember and bomb both declare `'B'`, and the registry takes the last one found. Discovery order is file-system order, so the registry is a parameter and the model does not fix the winner.
- The element files that only set attributes (sand, wall, glass, metal, oil, slime, gasoline, mud, wood, stone, lamp, empty): their values are in the kind table (`Kinds`), and their behaviour is the archetype's.
- The configuration, start-up and package files: constants and path setup only. The constants the core reads (`MAX_CURSOR_SIZE`, the default cursor size) are constants of the model.
- The exception an element update may raise, and the `RuntimeError` a tick wraps it in: every modelled update is total, so a tick never aborts.
- The decay, trigger and absorb code of the energy particle and the absorber: their inherited `update` never calls `run_interactions`, so none of it runs in a tick. In the model their update only marks them processed (`Archetypes.InertClasses`).
- Archetypes.UpdateM: dispatches each element to its rule and states that the element ends processed, that an element already processed changes nothing, and that a flag-only static element changes only its flag. It is not tied to the pure `Archetypes.Update` as a whole, to keep the dispatcher's proof small. Each rule's own method is tied to its pure function.
- Game.Game.Edit: states only the game's invariant. What the editing keys write is stated by `Game.Game.ApplyCursor` and `Grids.Grid.Clear`.
- Game.Game.Tick: does not state that every particle found unprocessed in its own cell when its cell is reached gets updated. That concerns the grid partway through the tick, which no postcondition can name. The loop test is in `Game.Game.VisitRow`, and `Game.Game.Visit` states what one update promises.
- Commands.Processor.Process: dispatches through the corrected `Commands.Route` and `Commands.Processor.QuickLoadCmd`, not the as-written `Commands.RouteAsWritten` and `Commands.Processor.QuickLoadAsWritten`. Both as-written members are modelled and their discrepancies are shown under "## Findings".

## Findings

| source | as written | input that shows it | evidently intended | confidence | as-written member | corrected member |
|---|---|---|---|---|---|---|
| falling_sand_game/command.py:72-85 | the command word is lower-cased before it is looked up as an element key, so a key with a capital letter can never be selected by typing it | with keys `'W'` and `'w'` registered, typing `W` selects `'w'`; with only `'S'` registered and no element named `s`, typing `S` is an unknown command | an element key is matched as typed, as `select` and `fill` match it, and only command names ignore case | not executed | Commands.RouteAsWritten (shown by Commands.RouteLowersKey and Commands.RouteMissesKey) | Commands.Route (Commands.RouteKeys, Commands.RouteAgrees) |
| falling_sand_game/command.py:537-545 | after a quick load the cursor is clamped into the game area of the screen layout, not into the grid just loaded | a slot saved from a grid 5 rows high, loaded into a game area 20 rows high with the cursor on row 19: the cursor stays on row 19, below the grid | the cursor is clamped into the loaded grid | not executed | Commands.Processor.QuickLoadAsWritten (shown by Commands.Processor.QuickLoadLeavesGrid) | Commands.Processor.QuickLoadCmd |
