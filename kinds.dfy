// The element type table: every element class of the game, its key and the
// class-level attributes that the movement framework and the reactions read.
// Densities are written as integers ten times the source value (every density
// in the source has at most one decimal).

module Kinds {

  /** One constructor per element class that can be registered. */
  datatype Kind =
    | Sand | Wall | Water | Lava | Oil | Acid | Gasoline | Slime | Stone | Wood
    | Ice | Plant | Seed | Metal | Glass | Fuse | Thermite | Gunpowder | Salt
    | Cement | Ash | Ember | Mud | Steam | Smoke | Fire | Virus | Void | Lamp
    | Photosensitive | AntiGravity | Conveyor | Cryo | Fungus | Spore
    | Radioactive | Singularity | Explosive | Bomb | Bug | GlassPowder
    | CorrosiveGas | FrozenMetal | Goo | EnergyParticle | Absorber | Emitter
    | PowerfulEmitter | CleanEmitter | Duplicator

  /** The archetype base class an element derives from. */
  datatype Arch = PowderA | LiquidA | GasA | SolidA | StaticA | MovableA

  /** The registry discovered at start-up: key to element class. */
  type Registry = map<char, Kind>

  function Key(k: Kind): char
  {
    match k
    case Sand => 'S'            case Wall => '#'           case Water => 'W'
    case Lava => 'L'            case Oil => 'I'            case Acid => 'A'
    case Gasoline => 'J'        case Slime => 'Z'          case Stone => 'O'
    case Wood => 'd'            case Ice => 'C'            case Plant => 'P'
    case Seed => 'E'            case Metal => 'M'          case Glass => 'X'
    case Fuse => 'U'            case Thermite => 'T'       case Gunpowder => 'N'
    case Salt => 't'            case Cement => 'Y'         case Ash => 'H'
    case Ember => 'B'           case Mud => 'R'            case Steam => 'G'
    case Smoke => 'K'           case Fire => 'F'           case Virus => 'V'
    case Void => '?'            case Lamp => 'l'           case Photosensitive => '='
    case AntiGravity => 'a'     case Conveyor => '>'       case Cryo => '<'
    case Fungus => 'f'          case Spore => ','          case Radioactive => 'u'
    case Singularity => '@'     case Explosive => 'D'      case Bomb => 'B'
    case Bug => 'w'             case GlassPowder => 'g'    case CorrosiveGas => 'x'
    case FrozenMetal => '_'     case Goo => '~'            case EnergyParticle => '{'
    case Absorber => '$'        case Emitter => 'Q'        case PowerfulEmitter => '%'
    case CleanEmitter => '&'    case Duplicator => '*'
  }

  /** The class-level `name` shown in the element list and matched by the
      `fill` and `select` commands. */
  function Name(k: Kind): (n: string)
    ensures n != []
  {
    match k
    case Sand => "沙子"          case Wall => "墙壁"          case Water => "水"
    case Lava => "岩浆"          case Oil => "油"             case Acid => "酸"
    case Gasoline => "汽油"      case Slime => "史莱姆"       case Stone => "石头"
    case Wood => "木头"          case Ice => "冰"             case Plant => "植物"
    case Seed => "种子"          case Metal => "金属"         case Glass => "玻璃"
    case Fuse => "导火索"        case Thermite => "铝热剂"    case Gunpowder => "火药"
    case Salt => "盐"            case Cement => "水泥粉末"    case Ash => "灰烬"
    case Ember => "余烬"         case Mud => "泥土"           case Steam => "蒸汽"
    case Smoke => "烟"           case Fire => "火"            case Virus => "病毒"
    case Void => "虚空"          case Lamp => "灯"            case Photosensitive => "感光粉末"
    case AntiGravity => "反重力粉末"  case Conveyor => "传送带 (右)"  case Cryo => "冷冻粉末"
    case Fungus => "真菌"        case Spore => "孢子"         case Radioactive => "放射物"
    case Singularity => "奇点"   case Explosive => "炸药"     case Bomb => "炸弹"
    case Bug => "虫"             case GlassPowder => "玻璃粉末"  case CorrosiveGas => "腐蚀气体"
    case FrozenMetal => "冰冷金属"  case Goo => "粘液"        case EnergyParticle => "能量粒子"
    case Absorber => "吸收块"    case Emitter => "发射器"     case PowerfulEmitter => "强效发射器"
    case CleanEmitter => "干净发射器"  case Duplicator => "复制器"
  }

  function ArchOf(k: Kind): Arch
  {
    match k
    case Sand | Seed | Thermite | Gunpowder | Salt | Cement | Ash | Ember | Mud
       | Photosensitive | AntiGravity | Cryo | Spore | Radioactive | GlassPowder => PowderA
    case Water | Lava | Oil | Acid | Gasoline | Slime | Goo => LiquidA
    case Steam | Smoke | Fire | CorrosiveGas => GasA
    case Stone | Wood | Ice | Plant | Fuse | Virus | Fungus | Explosive | Bomb
       | FrozenMetal | Emitter | PowerfulEmitter | CleanEmitter => SolidA
    case Wall | Metal | Glass | Void | Lamp | Conveyor | Singularity | Absorber
       | Duplicator => StaticA
    case Bug | EnergyParticle => MovableA
  }

  predicate IsLiquid(k: Kind) { ArchOf(k) == LiquidA }

  /** EnergyParticle sets `is_gas` without deriving from Gas. */
  predicate IsGas(k: Kind) { ArchOf(k) == GasA || k == EnergyParticle }

  predicate IsFlammable(k: Kind)
  {
    k in {Oil, Gasoline, Wood, Plant, Seed, Fuse, Gunpowder, Virus, Fungus,
          Explosive, Bomb, Bug}
  }

  predicate Dissolvable(k: Kind)
  {
    k in {Sand, Metal, Oil, Slime, Gasoline, Mud, Wood, Stone, Ash, Cement,
          Ember, Fungus, Fuse, Gunpowder, Ice, Plant, Radioactive, Salt, Seed,
          Thermite, Virus, Explosive, Bomb, Bug, GlassPowder, Goo}
  }

  /** Powder and Liquid set `can_freeze`; nothing else does. */
  predicate CanFreeze(k: Kind) { ArchOf(k) == PowderA || ArchOf(k) == LiquidA }

  predicate CanGrowOn(k: Kind) { k == Mud || k == Wood }

  predicate EmitsLight(k: Kind) { k == Lamp }

  function LightRadius(k: Kind): nat { if k == Lamp then 5 else 0 }

  /** Horizontal reach of a liquid per update. */
  function FlowSpeed(k: Kind): nat
  {
    match k
    case Lava | Slime | Goo => 1
    case Oil => 2
    case Gasoline => 4
    case _ => 3
  }

  /** Vertical reach of a gas per update. */
  function RiseSpeed(k: Kind): nat { if k == Fire then 2 else 1 }

  /** Horizontal reach of a gas per update. */
  function SpreadFactor(k: Kind): nat { if k == Fire || k == EnergyParticle then 3 else 2 }

  /** Class-level density, times ten. */
  function BaseDensity(k: Kind): int
  {
    match k
    case Sand => 60             case Wall => 1000          case Water => 10
    case Lava => 30             case Oil => 9              case Acid => 11
    case Gasoline => 7          case Slime => 15           case Stone => 200
    case Wood => 70             case Ice => 90             case Plant => 20
    case Seed => 20             case Metal => 700          case Glass => 250
    case Fuse => 90             case Thermite => 58        case Gunpowder => 55
    case Salt => 52             case Cement => 58          case Ash => 40
    case Ember => 45            case Mud => 55             case Steam => -55
    case Smoke => -60           case Fire => -40           case Virus => 10
    case Void => 10000          case Lamp => 200           case Photosensitive => 45
    case AntiGravity => 30      case Conveyor => 300       case Cryo => 51
    case Fungus => 15           case Spore => 1            case Radioactive => 80
    case Singularity => 100000  case Explosive => 150      case Bomb => 200
    case Bug => 5               case GlassPowder => 62     case CorrosiveGas => -48
    case FrozenMetal => 650     case Goo => 18             case EnergyParticle => -1
    case Absorber => 1000       case Emitter => 150        case PowerfulEmitter => 150
    case CleanEmitter => 150    case Duplicator => 200
  }

  /** Density of a solidified photosensitive powder, times ten. */
  const SolidifiedDensity: int := 1000

  /** Density a photosensitive powder reverts to, times ten. */
  const PowderDensity: int := 45

  /** Class-level `is_static`. */
  predicate BaseStatic(k: Kind)
  {
    match ArchOf(k)
    case PowderA | LiquidA | GasA | MovableA => false
    case SolidA => !(k in {Ice, Plant, Fuse, Virus, Fungus, Bomb})
    case StaticA => k != Conveyor
  }

  /** Class-level `is_powder`. */
  predicate BasePowder(k: Kind) { ArchOf(k) == PowderA }

  /** Class-level `is_heat_source`. */
  predicate BaseHeat(k: Kind) { k in {Ember, Fire, Lava} }

  /** The keys of the priority list `_ORIGINAL_ORDER`. */
  const OriginalOrder: seq<char> :=
    ['S', '#', 'W', 'L', 'I', 'A', 'J', 'Z', 'O', 'D', 'C', 'P', 'E', 'M', 'X',
     'U', 'T', 'N', 'Y', 'H', 'B', 'R', 'G', 'K', 'F', 'V', '?']

  /** `MAX_CURSOR_SIZE` */
  const MaxCursorSize: int := 10

  /** A registry is consistent when every class is filed under its own key. */
  predicate Consistent(reg: Registry)
  {
    forall c :: c in reg ==> Key(reg[c]) == c
  }

  lemma KeyCollision()
    ensures Key(Ember) == Key(Bomb)
    ensures forall k: Kind :: Key(k) == 'B' ==> k == Ember || k == Bomb
  {
  }
}
