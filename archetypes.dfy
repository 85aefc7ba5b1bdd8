// The archetype update methods of elements/base.py (Element, Powder, Liquid,
// Gas, Solid, StaticSolid) and the choice of update that each element class
// inherits or overrides.  The element rules supply `run_interactions` and
// the overriding `update` methods; the movement module supplies the moves.

module Archetypes {
  import opened Kinds
  import opened Oracle
  import opened Boards
  import opened Grids
  import opened Cells
  import opened Movement
  import AcidRule
  import AntiGravityRule
  import AshRule
  import BugRule
  import CementRule
  import ConveyorRule
  import CorrosiveGasRule
  import CryoRule
  import DuplicatorRule
  import EmberRule
  import EmitterRule
  import ExplosiveRule
  import FireRule
  import FrozenMetalRule
  import FungusRule
  import FuseRule
  import GlassPowderRule
  import GooRule
  import GunpowderRule
  import IceRule
  import LavaRule
  import PhotosensitiveRule
  import PlantRule
  import RadioactiveRule
  import SaltRule
  import SeedRule
  import SingularityRule
  import SmokeRule
  import SporeRule
  import SteamRule
  import ThermiteRule
  import VirusRule
  import VoidRule
  import WaterRule

  /** The update method an element class ends up with. */
  datatype Plan =
    | Overrides   // the class defines its own `update`
    | PowderPlan  // `Powder.update`
    | LiquidPlan  // `Liquid.update`
    | GasPlan     // `Gas.update`
    | SolidPlan   // `Solid.update`
    | FlagOnly    // `StaticSolid.update` or `Element.update`: only the flag

  /** The classes that define their own `update`. */
  predicate OwnUpdate(k: Kind)
  {
    k == Void || k == Singularity || k == Conveyor || k == Duplicator ||
    k == AntiGravity || k == Photosensitive || k == Bomb || k == Bug
  }

  function PlanOf(k: Kind): (pl: Plan)
    ensures pl == Overrides <==> OwnUpdate(k)
    ensures pl == FlagOnly <==> !OwnUpdate(k) && (ArchOf(k) == StaticA || k == EnergyParticle)
    ensures pl == PowderPlan ==> ArchOf(k) == PowderA
    ensures pl == LiquidPlan <==> ArchOf(k) == LiquidA
    ensures pl == GasPlan <==> ArchOf(k) == GasA
  {
    if OwnUpdate(k) then Overrides
    else if ArchOf(k) == StaticA || k == EnergyParticle then FlagOnly
    else
      match ArchOf(k)
      case PowderA => PowderPlan
      case LiquidA => LiquidPlan
      case GasA => GasPlan
      case _ => SolidPlan
  }

  /** `run_interactions` of the element at (y, x), for the classes whose
      inherited update calls it (`keys` are the placeable keys the emitters
      draw from).  A class without its own `run_interactions` has its
      archetype's empty one.  `done` is the element's `processed` flag
      afterwards; while it is unset the element is still in its cell. */
  function Interaction(reg: Registry, keys: seq<char>, b: Board, y: int, x: int, r: Rng): (o: Out)
    requires InB(b, y, x) && !b[y][x].Empty?
    ensures SameShape(b, o.b) && (!o.done ==> Keeps(b[y][x], o.b[y][x]))
  {
    match ArchOf(KindOf(b[y][x]))
    case PowderA => PowderReactions(reg, b, y, x, r)
    case LiquidA => LiquidReactions(reg, b, y, x, r)
    case GasA => GasReactions(reg, b, y, x, r)
    case SolidA => SolidReactions(reg, keys, b, y, x, r)
    case _ => Out(b, false, r)
  }

  function PowderReactions(reg: Registry, b: Board, y: int, x: int, r: Rng): (o: Out)
    requires InB(b, y, x) && !b[y][x].Empty?
    ensures SameShape(b, o.b) && (!o.done ==> Keeps(b[y][x], o.b[y][x]))
  {
    match KindOf(b[y][x])
    case Seed => SeedRule.Interact(reg, b, y, x, r)
    case Thermite => ThermiteRule.Interact(reg, b, y, x, r)
    case Gunpowder => GunpowderRule.Interact(reg, b, y, x, r)
    case Salt => SaltRule.Interact(reg, b, y, x, r)
    case Cement => CementRule.Interact(reg, b, y, x, r)
    case Ash => AshRule.Interact(reg, b, y, x, r)
    case Ember => EmberRule.Interact(reg, b, y, x, r)
    case Cryo => CryoRule.Interact(reg, b, y, x, r)
    case Spore => SporeRule.Interact(reg, b, y, x, r)
    case Radioactive =>
      RadioactiveRule.DecaysOrMutates(reg, b, y, x, r);
      RadioactiveRule.Interact(reg, b, y, x, r)
    case GlassPowder => GlassPowderRule.Interact(reg, b, y, x, r)
    case _ => Out(b, false, r)
  }

  function LiquidReactions(reg: Registry, b: Board, y: int, x: int, r: Rng): (o: Out)
    requires InB(b, y, x) && !b[y][x].Empty?
    ensures SameShape(b, o.b) && (!o.done ==> Keeps(b[y][x], o.b[y][x]))
  {
    match KindOf(b[y][x])
    case Water => WaterRule.Interact(reg, b, y, x, r)
    case Lava =>
      LavaRule.Reacts(reg, b, y, x, r);
      LavaRule.Interact(reg, b, y, x, r)
    case Acid => AcidRule.Interact(b, y, x, r)
    case Goo => GooRule.Interact(b, y, x, r)
    case _ => Out(b, false, r)
  }

  function GasReactions(reg: Registry, b: Board, y: int, x: int, r: Rng): (o: Out)
    requires InB(b, y, x) && !b[y][x].Empty?
    ensures SameShape(b, o.b) && (!o.done ==> Keeps(b[y][x], o.b[y][x]))
  {
    match KindOf(b[y][x])
    case Steam => SteamRule.Interact(reg, b, y, x, r)
    case Smoke => SmokeRule.Interact(b, y, x, r)
    case Fire => FireRule.Interact(reg, b, y, x, r)
    case CorrosiveGas => CorrosiveGasRule.Interact(b, y, x, r)
    case _ => Out(b, false, r)
  }

  function SolidReactions(reg: Registry, keys: seq<char>, b: Board, y: int, x: int, r: Rng): (o: Out)
    requires InB(b, y, x) && !b[y][x].Empty?
    ensures SameShape(b, o.b) && (!o.done ==> Keeps(b[y][x], o.b[y][x]))
  {
    match KindOf(b[y][x])
    case Fuse => FuseRule.Interact(reg, b, y, x, r)
    case Ice => IceRule.Interact(reg, b, y, x, r)
    case Virus => VirusRule.Interact(b, y, x, r)
    case Plant => PlantRule.Interact(b, y, x, r)
    case Fungus => FungusRule.Interact(reg, b, y, x, r)
    case Explosive => Out(ExplosiveRule.Explosive(reg, b, y, x), true, r)
    case FrozenMetal => FrozenMetalRule.Interact(reg, b, y, x, r)
    case Emitter => EmitterRule.Adjacent(reg, keys, b, y, x, r)
    case PowerfulEmitter => EmitterRule.Far(reg, keys, b, y, x, r)
    case CleanEmitter => EmitterRule.Adjacent(reg, EmitterRule.CleanKeys(keys), b, y, x, r)
    case _ => Out(b, false, r)
  }

  /** The closing `if not self.processed: self.processed = True`. */
  function Finish(o: Out, y: int, x: int): (o': Out)
    requires !o.done ==> InB(o.b, y, x) && !o.b[y][x].Empty?
    ensures o'.done && o'.r == o.r
  {
    if o.done then o else Out(Proc(o.b, y, x), true, o.r)
  }

  /** What `Powder.update` does once `run_interactions` left `i`: nothing
      more if they processed the element, else the fall, then the flag. */
  function PowderRest(i: Out, y: int, x: int): (o: Out)
    requires !i.done ==> InB(i.b, y, x) && !i.b[y][x].Empty?
    ensures o.done
  {
    if i.done then i
    else
      FallSpec(i.b, y, x, Grains, i.r);
      Finish(Fall(i.b, y, x, Grains, i.r), y, x)
  }

  /** What `Liquid.update` does once `run_interactions` left `i`: nothing
      more if they processed the element, else the flow, then the flag. */
  function LiquidRest(i: Out, y: int, x: int): (o: Out)
    requires !i.done ==> InB(i.b, y, x) && !i.b[y][x].Empty?
    ensures o.done
  {
    if i.done then i
    else
      LiquidMoveSpec(i.b, y, x, i.r);
      Finish(LiquidMove(i.b, y, x, i.r), y, x)
  }

  /** `Powder.update` after its guard: reactions, then the rest. */
  function PowderUpdate(reg: Registry, keys: seq<char>, b: Board, y: int, x: int, r: Rng): (o: Out)
    requires InB(b, y, x) && !b[y][x].Empty?
    ensures o.done
  {
    PowderRest(Interaction(reg, keys, b, y, x, r), y, x)
  }

  /** `Liquid.update` after its guard: reactions, then the rest. */
  function LiquidUpdate(reg: Registry, keys: seq<char>, b: Board, y: int, x: int, r: Rng): (o: Out)
    requires InB(b, y, x) && !b[y][x].Empty?
    ensures o.done
  {
    LiquidRest(Interaction(reg, keys, b, y, x, r), y, x)
  }

  /** `Gas.update` after its guard: rise and spread (or vanish at the top),
      then the reactions only if the gas did not move, then the flag. */
  function GasUpdate(reg: Registry, keys: seq<char>, b: Board, y: int, x: int, r: Rng): (o: Out)
    requires InB(b, y, x) && !b[y][x].Empty? && Rect(b)
    ensures o.done
  {
    var m := GasMove(b, y, x, r);
    GasMoveSpec(b, y, x, r);
    if m.done then m
    else Finish(Interaction(reg, keys, m.b, y, x, m.r), y, x)
  }

  /** `Solid.update` after its guard: reactions, then the flag. */
  function SolidUpdate(reg: Registry, keys: seq<char>, b: Board, y: int, x: int, r: Rng): (o: Out)
    requires InB(b, y, x) && !b[y][x].Empty?
    ensures o.done
  {
    Finish(Interaction(reg, keys, b, y, x, r), y, x)
  }

  /** The `update` of a class that overrides it. */
  function Own(reg: Registry, b: Board, y: int, x: int, dirs: seq<(int, int)>, r: Rng): (res: (Out, seq<(int, int)>))
    requires InB(b, y, x) && !b[y][x].Empty? && PlanOf(KindOf(b[y][x])) == Overrides
    ensures res.0.done
  {
    match KindOf(b[y][x])
    case Void => (VoidRule.Update(b, y, x, r), dirs)
    case Singularity => (SingularityRule.Update(b, y, x, r), dirs)
    case Conveyor => (Out(ConveyorRule.Push(b, y, x), true, r), dirs)
    case Duplicator => (DuplicatorRule.Update(reg, b, y, x, r), dirs)
    case AntiGravity => (AntiGravityRule.Update(b, y, x, r), dirs)
    case Photosensitive => (PhotosensitiveRule.Update(b, y, x, r), dirs)
    case Bomb => (Out(ExplosiveRule.Bomb(reg, b, y, x), true, r), dirs)
    case Bug => BugRule.Update(b, y, x, dirs, r)
  }

  /** `element.update(grid)` for the element at (y, x), with `dirs` the
      bug class's shared direction list, which the result also returns. */
  function Update(reg: Registry, keys: seq<char>, b: Board, y: int, x: int, dirs: seq<(int, int)>, r: Rng)
    : (res: (Out, seq<(int, int)>))
    requires InB(b, y, x) && !b[y][x].Empty? && Rect(b)
    ensures res.0.done
  {
    if b[y][x].st.processed then (Out(b, true, r), dirs)
    else
      match PlanOf(KindOf(b[y][x]))
      case Overrides => Own(reg, b, y, x, dirs, r)
      case PowderPlan => (PowderUpdate(reg, keys, b, y, x, r), dirs)
      case LiquidPlan => (LiquidUpdate(reg, keys, b, y, x, r), dirs)
      case GasPlan => (GasUpdate(reg, keys, b, y, x, r), dirs)
      case SolidPlan => (SolidUpdate(reg, keys, b, y, x, r), dirs)
      case FlagOnly => (Out(Proc(b, y, x), true, r), dirs)
  }

  // --- Properties ---

  /** Whatever the reactions left: a powder they processed goes no further;
      one they left unprocessed moves one row down by the fall rule
      (straight, or diagonally past a clear side cell), or, when nothing
      below is open, stays with only its flag set. */
  lemma {:induction false} PowderSteps(i: Out, y: int, x: int)
    requires !i.done ==> InB(i.b, y, x) && !i.b[y][x].Empty?
    ensures var o := PowderRest(i, y, x);
      (i.done ==> o == i) &&
      (!i.done ==>
        || StepsTo(i.b, y, x, 0, Grains, o.b)
        || StepsTo(i.b, y, x, -1, Grains, o.b)
        || StepsTo(i.b, y, x, 1, Grains, o.b)
        || (!Opens(i.b, y + 1, x, Grains, i.b[y][x].st.density) &&
            Local(i.b, o.b, y, x, (y, x)) && Marked(i.b, o.b, y, x)))
  {
    if !i.done {
      FallSpec(i.b, y, x, Grains, i.r);
      MarkOnly(i.b, y, x);
    }
  }

  /** A liquid its reactions left unprocessed flows to another cell open
      for it, or stays with only its flag set. */
  lemma {:induction false} LiquidSteps(i: Out, y: int, x: int)
    requires !i.done ==> InB(i.b, y, x) && !i.b[y][x].Empty?
    ensures var o := LiquidRest(i, y, x);
      (i.done ==> o == i) &&
      (!i.done ==> Moved(i.b, y, x, Fluid, o.b) || (Local(i.b, o.b, y, x, (y, x)) && Marked(i.b, o.b, y, x)))
  {
    if !i.done {
      LiquidMoveSpec(i.b, y, x, i.r);
      MarkOnly(i.b, y, x);
    }
  }

  /** A gas reacts only when its movement left it in place, and then on the
      board it started from: a gas that rose, spread or vanished at the top
      does not run `run_interactions` in that update. */
  lemma {:induction false} GasReactsInPlace(reg: Registry, keys: seq<char>, b: Board, y: int, x: int, r: Rng)
    requires InB(b, y, x) && !b[y][x].Empty? && Rect(b)
    ensures var m := GasMove(b, y, x, r); var o := GasUpdate(reg, keys, b, y, x, r);
      (m.done ==> o == m) &&
      (!m.done ==> o == Finish(Interaction(reg, keys, b, y, x, m.r), y, x))
  {
    GasMoveSpec(b, y, x, r);
  }

  /** A class whose update is `StaticSolid.update` or `Element.update`
      (walls, metal, glass, lamps, absorbers, energy particles) only sets
      its flag: no reaction, no move, no roll, so the absorber's and the
      energy particle's own reaction code never runs in a tick. */
  lemma {:induction false} FlagOnlyMarks(reg: Registry, keys: seq<char>, b: Board, y: int, x: int,
                                         dirs: seq<(int, int)>, r: Rng)
    requires InB(b, y, x) && !b[y][x].Empty? && Rect(b) && !b[y][x].st.processed
    requires PlanOf(KindOf(b[y][x])) == FlagOnly
    ensures var (o, dirs') := Update(reg, keys, b, y, x, dirs, r);
      Local(b, o.b, y, x, (y, x)) && Marked(b, o.b, y, x) && o.r == r && dirs' == dirs
  {
    MarkOnly(b, y, x);
  }

  /** Absorber and EnergyParticle are such classes. */
  lemma InertClasses()
    ensures PlanOf(Absorber) == FlagOnly && PlanOf(EnergyParticle) == FlagOnly
  {
  }

  /** An element already processed this tick is left as it is. */
  lemma SkipsProcessed(reg: Registry, keys: seq<char>, b: Board, y: int, x: int, dirs: seq<(int, int)>, r: Rng)
    requires InB(b, y, x) && !b[y][x].Empty? && Rect(b) && b[y][x].st.processed
    ensures Update(reg, keys, b, y, x, dirs, r) == (Out(b, true, r), dirs)
  {
  }

  // --- The same steps on the grid ---

  /** After reactions that left the element unprocessed in its cell, the
      grid still hosts it. */
  lemma Rehost(g: Grid, o: Out, S: set<Particle>, p: Particle, s: Slot, y: int, x: int)
    requires g.Shows(o.b, S) && p.y == y && p.x == x && g.IsValid(y, x)
    requires s.Old? && s.p == p && Keeps(s, o.b[y][x])
    ensures g.Hosts(o.b, S, p)
  {
    g.MatchAt(o.b, S, y, x);
    g.HostsAt(o.b, S, p);
  }

  /** The outcome `o` of an element method, on which an element the method
      left unprocessed is still hosted in its cell. */
  ghost method Settle(g: Grid, p: Particle, o: Out, s: Slot, S: set<Particle>, y: int, x: int) returns (io: Out)
    requires g.Shows(o.b, S) && g.IsValid(y, x) && s.Old? && s.p == p
    requires !p.processed ==> p.y == y && p.x == x && Keeps(s, o.b[y][x])
    ensures io == o && (!p.processed ==> g.Hosts(io.b, S, p))
  {
    io := o;
    if !p.processed {
      Rehost(g, o, S, p, s, y, x);
    }
  }

  // Each of the following runs the element method of the element's class,
  // whose own contract ties it to that class's `Interact`; they are split
  // in groups of at most four classes only to keep each proof small.

  /** The reactions of seed, thermite, gunpowder and salt. */
  method PowderReactionsA(g: Grid, p: Particle, reg: Registry, rng: Rng, ghost b: Board, ghost S: set<Particle>)
    returns (rng': Rng, ghost io: Out)
    requires g.Hosts(b, S, p) && !p.processed
    modifies g, g.cells, g.Repr
    ensures g.Shows(io.b, S) && (p.processed <==> io.done) && g.Grew() && rng' == io.r
    ensures !io.done ==> g.Hosts(io.b, S, p) && p.y == old(p.y) && p.x == old(p.x)
  {
    var y, x := p.y, p.x;
    rng', io := rng, Out(b, false, rng);
    match p.kind
    case Seed =>
      rng' := SeedRule.InteractM(g, p, reg, rng, b, S);
      io := Settle(g, p, SeedRule.Interact(reg, b, y, x, rng), b[y][x], S, y, x);
    case Thermite =>
      rng' := ThermiteRule.InteractM(g, p, reg, rng, b, S);
      io := Settle(g, p, ThermiteRule.Interact(reg, b, y, x, rng), b[y][x], S, y, x);
    case Gunpowder =>
      rng' := GunpowderRule.InteractM(g, p, reg, rng, b, S);
      io := Settle(g, p, GunpowderRule.Interact(reg, b, y, x, rng), b[y][x], S, y, x);
    case Salt =>
      rng' := SaltRule.InteractM(g, p, reg, rng, b, S);
      io := Settle(g, p, SaltRule.Interact(reg, b, y, x, rng), b[y][x], S, y, x);
    case _ =>
  }

  /** The reactions of cement, ash, ember and cryo powder. */
  method PowderReactionsB(g: Grid, p: Particle, reg: Registry, rng: Rng, ghost b: Board, ghost S: set<Particle>)
    returns (rng': Rng, ghost io: Out)
    requires g.Hosts(b, S, p) && !p.processed
    modifies g, g.cells, g.Repr
    ensures g.Shows(io.b, S) && (p.processed <==> io.done) && g.Grew() && rng' == io.r
    ensures !io.done ==> g.Hosts(io.b, S, p) && p.y == old(p.y) && p.x == old(p.x)
  {
    var y, x := p.y, p.x;
    rng', io := rng, Out(b, false, rng);
    match p.kind
    case Cement =>
      rng' := CementRule.InteractM(g, p, reg, rng, b, S);
      io := Settle(g, p, CementRule.Interact(reg, b, y, x, rng), b[y][x], S, y, x);
    case Ash =>
      rng' := AshRule.InteractM(g, p, reg, rng, b, S);
      io := Settle(g, p, AshRule.Interact(reg, b, y, x, rng), b[y][x], S, y, x);
    case Ember =>
      rng' := EmberRule.InteractM(g, p, reg, rng, b, S);
      io := Settle(g, p, EmberRule.Interact(reg, b, y, x, rng), b[y][x], S, y, x);
    case Cryo =>
      rng' := CryoRule.InteractM(g, p, reg, rng, b, S);
      io := Settle(g, p, CryoRule.Interact(reg, b, y, x, rng), b[y][x], S, y, x);
    case _ =>
  }

  /** The reactions of spore, radioactive and glass powder. */
  method PowderReactionsC(g: Grid, p: Particle, reg: Registry, rng: Rng, ghost b: Board, ghost S: set<Particle>)
    returns (rng': Rng, ghost io: Out)
    requires g.Hosts(b, S, p) && !p.processed
    modifies g, g.cells, g.Repr
    ensures g.Shows(io.b, S) && (p.processed <==> io.done) && g.Grew() && rng' == io.r
    ensures !io.done ==> g.Hosts(io.b, S, p) && p.y == old(p.y) && p.x == old(p.x)
  {
    var y, x := p.y, p.x;
    rng', io := rng, Out(b, false, rng);
    match p.kind
    case Spore =>
      rng' := SporeRule.InteractM(g, p, reg, rng, b, S);
      io := Settle(g, p, SporeRule.Interact(reg, b, y, x, rng), b[y][x], S, y, x);
    case Radioactive =>
      rng' := RadioactiveRule.InteractM(g, p, reg, rng, b, S);
      RadioactiveRule.DecaysOrMutates(reg, b, y, x, rng);
      io := Settle(g, p, RadioactiveRule.Interact(reg, b, y, x, rng), b[y][x], S, y, x);
    case GlassPowder =>
      rng' := GlassPowderRule.InteractM(g, p, reg, rng, b, S);
      io := Settle(g, p, GlassPowderRule.Interact(reg, b, y, x, rng), b[y][x], S, y, x);
    case _ =>
  }

  /** The reactions of the liquids: water, lava, acid and goo. */
  method LiquidReactionsM(g: Grid, p: Particle, reg: Registry, rng: Rng, ghost b: Board, ghost S: set<Particle>)
    returns (rng': Rng, ghost io: Out)
    requires g.Hosts(b, S, p) && !p.processed
    modifies g, g.cells, g.Repr
    ensures g.Shows(io.b, S) && (p.processed <==> io.done) && g.Grew() && rng' == io.r
    ensures !io.done ==> g.Hosts(io.b, S, p) && p.y == old(p.y) && p.x == old(p.x)
  {
    var y, x := p.y, p.x;
    rng', io := rng, Out(b, false, rng);
    match p.kind
    case Water =>
      rng' := WaterRule.InteractM(g, p, reg, rng, b, S);
      io := Settle(g, p, WaterRule.Interact(reg, b, y, x, rng), b[y][x], S, y, x);
    case Lava =>
      rng' := LavaRule.InteractM(g, p, reg, rng, b, S);
      LavaRule.Reacts(reg, b, y, x, rng);
      io := Settle(g, p, LavaRule.Interact(reg, b, y, x, rng), b[y][x], S, y, x);
    case Acid =>
      rng' := AcidRule.InteractM(g, p, rng, b, S);
      io := Settle(g, p, AcidRule.Interact(b, y, x, rng), b[y][x], S, y, x);
    case Goo =>
      rng' := GooRule.InteractM(g, p, rng, b, S);
      io := Settle(g, p, GooRule.Interact(b, y, x, rng), b[y][x], S, y, x);
    case _ =>
  }

  /** The reactions of the gases: steam, smoke, fire and corrosive gas. */
  method GasReactionsM(g: Grid, p: Particle, reg: Registry, rng: Rng, ghost b: Board, ghost S: set<Particle>)
    returns (rng': Rng, ghost io: Out)
    requires g.Hosts(b, S, p) && !p.processed
    modifies g, g.cells, g.Repr
    ensures g.Shows(io.b, S) && (p.processed <==> io.done) && g.Grew() && rng' == io.r
    ensures !io.done ==> g.Hosts(io.b, S, p) && p.y == old(p.y) && p.x == old(p.x)
  {
    var y, x := p.y, p.x;
    rng', io := rng, Out(b, false, rng);
    match p.kind
    case Steam =>
      rng' := SteamRule.InteractM(g, p, reg, rng, b, S);
      io := Settle(g, p, SteamRule.Interact(reg, b, y, x, rng), b[y][x], S, y, x);
    case Smoke =>
      rng' := SmokeRule.InteractM(g, p, rng, b, S);
      io := Settle(g, p, SmokeRule.Interact(b, y, x, rng), b[y][x], S, y, x);
    case Fire =>
      rng' := FireRule.InteractM(g, p, reg, rng, b, S);
      io := Settle(g, p, FireRule.Interact(reg, b, y, x, rng), b[y][x], S, y, x);
    case CorrosiveGas =>
      rng' := CorrosiveGasRule.InteractM(g, p, rng, b, S);
      io := Settle(g, p, CorrosiveGasRule.Interact(b, y, x, rng), b[y][x], S, y, x);
    case _ =>
  }

  /** The reactions of fuse, ice, virus and plant. */
  method SolidReactionsA(g: Grid, p: Particle, reg: Registry, rng: Rng, ghost b: Board, ghost S: set<Particle>)
    returns (rng': Rng, ghost io: Out)
    requires g.Hosts(b, S, p) && !p.processed
    modifies g, g.cells, g.Repr
    ensures g.Shows(io.b, S) && (p.processed <==> io.done) && g.Grew() && rng' == io.r
    ensures !io.done ==> g.Hosts(io.b, S, p) && p.y == old(p.y) && p.x == old(p.x)
  {
    var y, x := p.y, p.x;
    rng', io := rng, Out(b, false, rng);
    match p.kind
    case Fuse =>
      rng' := FuseRule.InteractM(g, p, reg, rng, b, S);
      io := Settle(g, p, FuseRule.Interact(reg, b, y, x, rng), b[y][x], S, y, x);
    case Ice =>
      rng' := IceRule.InteractM(g, p, reg, rng, b, S);
      io := Settle(g, p, IceRule.Interact(reg, b, y, x, rng), b[y][x], S, y, x);
    case Virus =>
      rng' := VirusRule.InteractM(g, p, rng, b, S);
      io := Settle(g, p, VirusRule.Interact(b, y, x, rng), b[y][x], S, y, x);
    case Plant =>
      rng' := PlantRule.InteractM(g, p, rng, b, S);
      io := Settle(g, p, PlantRule.Interact(b, y, x, rng), b[y][x], S, y, x);
    case _ =>
  }

  /** The reactions of fungus, explosive and frozen metal. */
  method SolidReactionsB(g: Grid, p: Particle, reg: Registry, rng: Rng, ghost b: Board, ghost S: set<Particle>)
    returns (rng': Rng, ghost io: Out)
    requires g.Hosts(b, S, p) && !p.processed
    modifies g, g.cells, g.Repr
    ensures g.Shows(io.b, S) && (p.processed <==> io.done) && g.Grew() && rng' == io.r
    ensures !io.done ==> g.Hosts(io.b, S, p) && p.y == old(p.y) && p.x == old(p.x)
  {
    var y, x := p.y, p.x;
    rng', io := rng, Out(b, false, rng);
    match p.kind
    case Fungus =>
      rng' := FungusRule.InteractM(g, p, reg, rng, b, S);
      io := Settle(g, p, FungusRule.Interact(reg, b, y, x, rng), b[y][x], S, y, x);
    case Explosive =>
      ExplosiveRule.ExplosiveM(g, p, reg, b, S);
      io := Settle(g, p, Out(ExplosiveRule.Explosive(reg, b, y, x), true, rng), b[y][x], S, y, x);
    case FrozenMetal =>
      rng' := FrozenMetalRule.InteractM(g, p, reg, rng, b, S);
      io := Settle(g, p, FrozenMetalRule.Interact(reg, b, y, x, rng), b[y][x], S, y, x);
    case _ =>
  }

  /** The reactions of the three emitters, which draw from the placeable keys. */
  method EmitterReactionsM(g: Grid, p: Particle, reg: Registry, keys: seq<char>, rng: Rng, ghost b: Board, ghost S: set<Particle>)
    returns (rng': Rng, ghost io: Out)
    requires g.Hosts(b, S, p) && !p.processed
    modifies g, g.cells, g.Repr
    ensures g.Shows(io.b, S) && (p.processed <==> io.done) && g.Grew() && rng' == io.r
    ensures !io.done ==> g.Hosts(io.b, S, p) && p.y == old(p.y) && p.x == old(p.x)
  {
    var y, x := p.y, p.x;
    rng', io := rng, Out(b, false, rng);
    match p.kind
    case Emitter =>
      rng' := EmitterRule.AdjacentM(g, p, reg, keys, rng, b, S);
      io := Settle(g, p, EmitterRule.Adjacent(reg, keys, b, y, x, rng), b[y][x], S, y, x);
    case PowerfulEmitter =>
      rng' := EmitterRule.FarM(g, p, reg, keys, rng, b, S);
      io := Settle(g, p, EmitterRule.Far(reg, keys, b, y, x, rng), b[y][x], S, y, x);
    case CleanEmitter =>
      rng' := EmitterRule.CleanM(g, p, reg, keys, rng, b, S);
      io := Settle(g, p, EmitterRule.Adjacent(reg, EmitterRule.CleanKeys(keys), b, y, x, rng), b[y][x], S, y, x);
    case _ =>
  }

  /** `run_interactions` of the element, by its archetype; a class without
      reactions of its own leaves the grid as it is. */
  method ReactionsM(g: Grid, p: Particle, reg: Registry, keys: seq<char>, rng: Rng, ghost b: Board, ghost S: set<Particle>)
    returns (rng': Rng, ghost io: Out)
    requires g.Hosts(b, S, p) && !p.processed
    modifies g, g.cells, g.Repr
    ensures g.Shows(io.b, S) && (p.processed <==> io.done) && g.Grew() && rng' == io.r
    ensures !io.done ==> g.Hosts(io.b, S, p) && p.y == old(p.y) && p.x == old(p.x)
  {
    match p.kind
    case Seed | Thermite | Gunpowder | Salt => rng', io := PowderReactionsA(g, p, reg, rng, b, S);
    case Cement | Ash | Ember | Cryo => rng', io := PowderReactionsB(g, p, reg, rng, b, S);
    case Spore | Radioactive | GlassPowder => rng', io := PowderReactionsC(g, p, reg, rng, b, S);
    case Water | Lava | Acid | Goo => rng', io := LiquidReactionsM(g, p, reg, rng, b, S);
    case Steam | Smoke | Fire | CorrosiveGas => rng', io := GasReactionsM(g, p, reg, rng, b, S);
    case Fuse | Ice | Virus | Plant => rng', io := SolidReactionsA(g, p, reg, rng, b, S);
    case Fungus | Explosive | FrozenMetal => rng', io := SolidReactionsB(g, p, reg, rng, b, S);
    case Emitter | PowerfulEmitter | CleanEmitter => rng', io := EmitterReactionsM(g, p, reg, keys, rng, b, S);
    case _ => rng', io := rng, Out(b, false, rng);
  }

  /** The reactions and movement of a class that overrides `update`:
      void, singularity, conveyor belt and duplicator. */
  method OwnUpdateA(g: Grid, p: Particle, reg: Registry, rng: Rng, ghost b: Board, ghost S: set<Particle>)
    returns (rng': Rng, ghost nb: Board)
    requires g.Hosts(b, S, p) && !p.processed
    requires p.kind == Void || p.kind == Singularity || p.kind == Conveyor || p.kind == Duplicator
    modifies g, g.cells, g.Repr
    ensures g.Shows(nb, S) && p.processed && g.Grew()
  {
    var y, x := p.y, p.x;
    match p.kind
    case Void =>
      rng' := VoidRule.UpdateM(g, p, rng, b, S);
      nb := VoidRule.Update(b, y, x, rng).b;
    case Singularity =>
      rng' := SingularityRule.UpdateM(g, p, rng, b, S);
      nb := SingularityRule.Update(b, y, x, rng).b;
    case Conveyor =>
      ConveyorRule.PushM(g, p, b, S);
      rng', nb := rng, ConveyorRule.Push(b, y, x);
    case Duplicator =>
      rng' := DuplicatorRule.UpdateM(g, p, reg, rng, b, S);
      nb := DuplicatorRule.Update(reg, b, y, x, rng).b;
  }

  /** The same for antigravity powder, photosensitive powder, bomb and bug;
      only the bug reorders the shared direction list `md`. */
  method OwnUpdateB(g: Grid, p: Particle, reg: Registry, md: BugRule.Directions, rng: Rng,
                    ghost b: Board, ghost S: set<Particle>) returns (rng': Rng, ghost nb: Board)
    requires g.Hosts(b, S, p) && !p.processed
    requires p.kind == AntiGravity || p.kind == Photosensitive || p.kind == Bomb || p.kind == Bug
    modifies g, g.cells, g.Repr, md
    ensures g.Shows(nb, S) && p.processed && g.Grew()
    ensures p.kind != Bug ==> md.dirs == old(md.dirs)
  {
    var y, x := p.y, p.x;
    match p.kind
    case AntiGravity =>
      rng' := AntiGravityRule.UpdateM(g, p, rng, b, S);
      nb := AntiGravityRule.Update(b, y, x, rng).b;
    case Photosensitive =>
      rng' := PhotosensitiveRule.UpdateM(g, p, rng, b, S);
      nb := PhotosensitiveRule.Update(b, y, x, rng).b;
    case Bomb =>
      ExplosiveRule.BombM(g, p, reg, b, S);
      rng', nb := rng, ExplosiveRule.Bomb(reg, b, y, x);
    case Bug =>
      ghost var dirs := md.dirs;
      rng' := BugRule.UpdateM(g, p, md, rng, b, S);
      nb := BugRule.Update(b, y, x, dirs, rng).0.b;
  }

  /** `Powder.update` after its guard, on the grid: whatever the reactions
      left (`io`), the rest of the update is `PowderRest`. */
  method PowderUpdateM(g: Grid, p: Particle, reg: Registry, keys: seq<char>, rng: Rng, ghost b: Board, ghost S: set<Particle>)
    returns (rng': Rng, ghost io: Out)
    requires g.Hosts(b, S, p) && !p.processed
    modifies g, g.cells, g.Repr
    ensures !io.done ==> InB(io.b, old(p.y), old(p.x)) && !io.b[old(p.y)][old(p.x)].Empty?
    ensures var o := PowderRest(io, old(p.y), old(p.x)); g.Shows(o.b, S) && rng' == o.r
    ensures p.processed && g.Grew()
  {
    var y, x := p.y, p.x;
    rng', io := ReactionsM(g, p, reg, keys, rng, b, S);
    if !p.processed {
      FallSpec(io.b, y, x, Grains, io.r);
      rng' := FallM(g, p, Grains, rng', io.b, S);
      if !p.processed {
        g.HostsAt(io.b, S, p);
        MarkSelf(g, p, io.b, S);
      }
    }
  }

  /** `Liquid.update` after its guard, on the grid: whatever the reactions
      left (`io`), the rest of the update is `LiquidRest`. */
  method LiquidUpdateM(g: Grid, p: Particle, reg: Registry, keys: seq<char>, rng: Rng, ghost b: Board, ghost S: set<Particle>)
    returns (rng': Rng, ghost io: Out)
    requires g.Hosts(b, S, p) && !p.processed
    modifies g, g.cells, g.Repr
    ensures !io.done ==> InB(io.b, old(p.y), old(p.x)) && !io.b[old(p.y)][old(p.x)].Empty?
    ensures var o := LiquidRest(io, old(p.y), old(p.x)); g.Shows(o.b, S) && rng' == o.r
    ensures p.processed && g.Grew()
  {
    var y, x := p.y, p.x;
    rng', io := ReactionsM(g, p, reg, keys, rng, b, S);
    if !p.processed {
      LiquidMoveSpec(io.b, y, x, io.r);
      rng' := LiquidMoveM(g, p, rng', io.b, S);
      if !p.processed {
        g.HostsAt(io.b, S, p);
        MarkSelf(g, p, io.b, S);
      }
    }
  }

  /** `Gas.update` after its guard, on the grid: the movement is `GasMove`
      and, when it leaves the gas in place, the reactions (`io`) run on the
      unchanged board and the flag is set. */
  method GasUpdateM(g: Grid, p: Particle, reg: Registry, keys: seq<char>, rng: Rng, ghost b: Board, ghost S: set<Particle>)
    returns (rng': Rng, ghost io: Out)
    requires g.Hosts(b, S, p) && !p.processed
    modifies g, g.cells, g.Repr
    ensures var m := GasMove(b, old(p.y), old(p.x), rng);
      (m.done ==> g.Shows(m.b, S) && rng' == m.r) &&
      (!m.done ==> (!io.done ==> InB(io.b, old(p.y), old(p.x)) && !io.b[old(p.y)][old(p.x)].Empty?) &&
                   var o := Finish(io, old(p.y), old(p.x)); g.Shows(o.b, S) && rng' == o.r)
    ensures p.processed && g.Grew()
  {
    var y, x := p.y, p.x;
    io := Out(b, false, rng);
    rng' := GasMoveM(g, p, rng, b, S);
    if !p.processed {
      GasMoveSpec(b, y, x, rng);
      g.HostsAt(b, S, p);
      rng', io := ReactionsM(g, p, reg, keys, rng', b, S);
      if !p.processed {
        MarkSelf(g, p, io.b, S);
      }
    }
  }

  /** `Solid.update` after its guard, on the grid: the reactions (`io`),
      then the flag. */
  method SolidUpdateM(g: Grid, p: Particle, reg: Registry, keys: seq<char>, rng: Rng, ghost b: Board, ghost S: set<Particle>)
    returns (rng': Rng, ghost io: Out)
    requires g.Hosts(b, S, p) && !p.processed
    modifies g, g.cells, g.Repr
    ensures !io.done ==> InB(io.b, old(p.y), old(p.x)) && !io.b[old(p.y)][old(p.x)].Empty?
    ensures var o := Finish(io, old(p.y), old(p.x)); g.Shows(o.b, S) && rng' == o.r
    ensures p.processed && g.Grew()
  {
    rng', io := ReactionsM(g, p, reg, keys, rng, b, S);
    if !p.processed {
      MarkSelf(g, p, io.b, S);
    }
  }

  /** `element.update(grid)` on the grid, for a particle in its own cell:
      it ends processed, flags only rise, and the grid shows a board `nb`.
      An element already processed changes nothing; one whose class only
      sets the flag changes only that; only a bug reorders `md`. */
  method UpdateM(g: Grid, p: Particle, reg: Registry, keys: seq<char>, md: BugRule.Directions, rng: Rng,
                 ghost b: Board, ghost S: set<Particle>) returns (rng': Rng, ghost nb: Board)
    requires g.Hosts(b, S, p)
    modifies g, g.cells, g.Repr, md
    ensures g.Shows(nb, S) && p.processed && g.Grew()
    ensures old(p.processed) ==> nb == b && rng' == rng
    ensures !old(p.processed) && PlanOf(p.kind) == FlagOnly ==> nb == Proc(b, old(p.y), old(p.x)) && rng' == rng
    ensures p.kind != Bug ==> md.dirs == old(md.dirs)
  {
    var y, x := p.y, p.x;
    if p.processed {
      return rng, b;
    }
    ghost var io;
    match PlanOf(p.kind)
    case Overrides =>
      if p.kind == Void || p.kind == Singularity || p.kind == Conveyor || p.kind == Duplicator {
        rng', nb := OwnUpdateA(g, p, reg, rng, b, S);
      } else {
        rng', nb := OwnUpdateB(g, p, reg, md, rng, b, S);
      }
    case PowderPlan =>
      rng', io := PowderUpdateM(g, p, reg, keys, rng, b, S);
      nb := PowderRest(io, y, x).b;
    case LiquidPlan =>
      rng', io := LiquidUpdateM(g, p, reg, keys, rng, b, S);
      nb := LiquidRest(io, y, x).b;
    case GasPlan =>
      rng', io := GasUpdateM(g, p, reg, keys, rng, b, S);
      var m := GasMove(b, y, x, rng);
      nb := if m.done then m.b else Finish(io, y, x).b;
    case SolidPlan =>
      rng', io := SolidUpdateM(g, p, reg, keys, rng, b, S);
      nb := Finish(io, y, x).b;
    case FlagOnly =>
      MarkSelf(g, p, b, S);
      rng', nb := rng, Proc(b, y, x);
  }
}
