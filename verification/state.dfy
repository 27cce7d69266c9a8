/**
 * The records of a battle: units (every entity that can stand on a tile),
 * effects (which never occupy a tile), statuses, skills, areas and the world
 * that ties them to the grid.  Operations live in the modules that follow the
 * original's files; this module only holds the shapes and the few accessors
 * every one of them needs.
 */
module State {
  import opened Wrappers
  import opened Grid

  /** The side of neutral fortresses and mines. */
  const NeutralSide: int := 555

  /** The tactic functions a minion can follow. */
  datatype Tactic =
    | Stop | Forward | Backward | GoSides | GoCenter | GoTop | GoBottom
    | AttackGeneral | DefendGeneral | Disperse | Null

  /** The tile filters of sieve.py, each judged from a general's point of view. */
  datatype SieveFn =
    | IsAdjacent | IsAlly | IsAllyGeneral | IsAllyMinion | IsEmpty | IsEnemy
    | IsEnemyGeneral | IsInRange(radius: int) | IsMinion | IsUnit

  datatype Shape =
    | SingleTarget
    | Circle(radius: int)
    | Line(origin: Pos)
    | AllBattleground
    | Custom(cells: seq<Pos>)

  /** A targeting area: a shape, an optional filter, an optional reach test on the centre cell. */
  datatype Area = Area(shape: Shape, sieve: Option<SieveFn>, general: Option<Id>,
                       reach: Option<SieveFn>, selfCentered: bool)

  /** Empower's ratio is the fraction num/den (the original uses a float). */
  datatype StatusKind =
    | Generic
    | Shield(armor: int, armorType: string)
    | Blind(savedPower: int)
    | Empower(num: int, den: int, bonus: int)
    | Poison(power: int, tbt: int, ticks: int, timer: int)
    | Haste(speedup: int)
    | Stunned
    | FreezeCooldowns
    | Vanished(home: Pos)

  datatype Status = Status(name: string, duration: int, owner: Option<Id>, kind: StatusKind)

  /** The skill functions; the ones without a target tile are marked in `AreaLess`. */
  datatype SkillFn =
    | NullFn
    | Heal(amount: int)
    | PlaceEntity(template: Id)
    | WaterPusher
    | Consume(hpGain: int, deltaCd: int)
    | Nuke(power: int, damageType: string)
    | ApplyStatus(status: Status, selfcast: bool)
    | CreateMinions(cells: seq<Pos>)
    | MinionGlider(goBottom: bool)
    | MinionLwss
    | SonicWaves(power: int, waves: int)
    | RestockMinions(number: int)
    | Darkness(duration: int)

  /** A skill; a dummy skill is permanently ready and never does anything. */
  datatype Skill = Skill(cd: int, maxCd: int, fn: SkillFn, area: Option<Area>, dummy: bool)

  datatype FormationKind = Rows(rows: int) | FlyingWedge(increment: int) | InvertedWedge(increment: int)

  datatype Variant = Standard | Conway | Emperor(humanForm: bool)

  datatype GeneralData = GeneralData(
    variant: Variant,
    skills: seq<Skill>,
    tactics: seq<Tactic>,
    selected: Tactic,
    previous: Tactic,
    flag: Option<Pos>,
    swapCd: int,
    swapMaxCd: int,
    swapSickness: int,
    lastSkillUsed: int,
    minionsAlive: int,
    template: Option<Id>,
    formation: FormationKind)

  /** What kind of entity a unit is; this decides which overrides of the original apply. */
  datatype Role =
    | Prop
    | MineRole
    | Grunt
    | Archer(rangedPower: int)
    | Giant(length: nat)
    | Commander(g: GeneralData)
    | Fort(length: nat, capacity: nat, guests: seq<Id>, production: int)

  datatype Unit = Unit(
    side: int, x: int, y: int,
    alive: bool, pushed: bool,
    nextAction: int, defaultNextAction: int,
    kills: int, owner: Option<Id>,
    hp: int, maxHp: int, power: int,
    armor: map<string, int>,
    tactic: Tactic,
    statuses: seq<Status>,
    path: seq<Pos>,
    role: Role)

  datatype Phase = Yellow | Orange | Red

  datatype EffectKind =
    | Marker
    | Temp(duration: int)
    | Blast(phase: Phase)
    | WaveFx(hit: seq<Id>)
    | BoulderFx(delay: int, deltaPower: int)
    | LoopFx(frames: nat, index: nat, duration: int)
    | ArrowFx

  datatype Effect = Effect(side: int, x: int, y: int, alive: bool, power: int, kills: int,
                           path: seq<Pos>, kind: EffectKind)

  datatype World = World(
    board: Board,
    units: map<Id, Unit>,
    fx: map<Id, Effect>,
    minions: seq<Id>,
    effects: seq<Id>,
    generals: seq<Id>,
    reserves: seq<seq<Id>>,
    fortresses: seq<Id>,
    nextId: Id)

  // ---------------------------------------------------------------- unit kinds

  predicate IsCommander(u: Unit) { u.role.Commander? }

  /** Units with hit points: minions of every kind and generals. */
  predicate HasHp(u: Unit)
  {
    u.role.Grunt? || u.role.Archer? || u.role.Giant? || u.role.Commander?
  }

  /** Entity.can_be_pushed applies to plain entities, mines and small minions only. */
  predicate Pushable(u: Unit)
  {
    u.role.Prop? || u.role.MineRole? || u.role.Grunt? || u.role.Archer?
  }

  predicate CanBeAttacked(u: Unit)
  {
    !u.role.Prop?
  }

  /** Side length of the square a unit covers. */
  function Length(u: Unit): nat
  {
    match u.role
    case Giant(l) => l
    case Fort(l, _, _, _) => l
    case _ => 1
  }

  predicate InFootprint(u: Unit, p: Pos)
  {
    u.x <= p.0 < u.x + Length(u) && u.y <= p.1 < u.y + Length(u)
  }

  function ArmorOf(u: Unit, kind: string): int
  {
    if kind in u.armor then u.armor[kind] else 0
  }

  function Occupant(w: World, p: Pos): Option<Id>
  {
    At(w.board, p).occupant
  }

  /** Tile.is_passable: a passable tile that is empty or held by an ally of `side`. */
  predicate PassableFor(w: World, p: Pos, side: int)
  {
    var t := At(w.board, p);
    t.passable && (t.occupant.None? || (t.occupant.value in w.units && w.units[t.occupant.value].side == side))
  }

  /**
   * The occupancy invariant: every tile that names an occupant names a known
   * unit whose body covers that tile.
   */
  ghost predicate Tracked(w: World)
  {
    forall p :: p in w.board.tiles && w.board.tiles[p].occupant.Some? ==>
      w.board.tiles[p].occupant.value in w.units && InFootprint(w.units[w.board.tiles[p].occupant.value], p)
  }

  /** Identifiers handed out so far are below `nextId`. */
  ghost predicate FreshIds(w: World)
  {
    (forall i :: i in w.units ==> i < w.nextId) && (forall i :: i in w.fx ==> i < w.nextId)
  }

  /** w' differs from w only in the fields of existing units, effects and tiles: nothing is created and no list changes. */
  ghost predicate Framed(w: World, w': World)
  {
    && w'.units.Keys == w.units.Keys && w'.fx.Keys == w.fx.Keys
    && w'.board.tiles.Keys == w.board.tiles.Keys && w'.board.order == w.board.order
    && w'.board.width == w.board.width && w'.board.height == w.board.height
    && w'.minions == w.minions && w'.effects == w.effects && w'.generals == w.generals
    && w'.reserves == w.reserves && w'.nextId == w.nextId
  }

  /** Framed, and every unit keeps its statuses. */
  ghost predicate Steady(w: World, w': World)
  {
    Framed(w, w') && forall k :: k in w.units ==> w'.units[k].statuses == w.units[k].statuses
  }

  /** Every effect is as it was, except for its kill count. */
  ghost predicate FxAsBefore(w: World, w': World)
  {
    forall e :: e in w.fx ==> e in w'.fx && w'.fx[e] == w.fx[e].(kills := w'.fx[e].kills)
  }

  lemma SteadyTrans(w1: World, w2: World, w3: World)
    requires Steady(w1, w2) && Steady(w2, w3)
    ensures Steady(w1, w3)
  {
  }

  lemma FramedTrans(w1: World, w2: World, w3: World)
    requires Framed(w1, w2) && Framed(w2, w3)
    ensures Framed(w1, w3)
  {
  }

  function SetUnit(w: World, id: Id, u: Unit): (w': World)
    ensures w'.units == w.units[id := u]
    ensures w'.board == w.board && w'.fx == w.fx && w'.minions == w.minions && w'.effects == w.effects
    ensures w'.generals == w.generals && w'.reserves == w.reserves && w'.nextId == w.nextId
  {
    w.(units := w.units[id := u])
  }

  function SetFx(w: World, id: Id, e: Effect): (w': World)
    ensures w'.fx == w.fx[id := e]
    ensures w'.board == w.board && w'.units == w.units && w'.minions == w.minions && w'.effects == w.effects
    ensures w'.generals == w.generals && w'.reserves == w.reserves && w'.nextId == w.nextId
  {
    w.(fx := w.fx[id := e])
  }

  function SetTileOccupant(w: World, p: Pos, o: Option<Id>): (w': World)
    ensures w'.board == SetOccupant(w.board, p, o)
    ensures w'.units == w.units && w'.fx == w.fx && w'.minions == w.minions && w'.effects == w.effects
    ensures w'.generals == w.generals && w'.reserves == w.reserves && w'.nextId == w.nextId
  {
    w.(board := SetOccupant(w.board, p, o))
  }

  /** The general of side s, when the generals list has an entry for it. */
  function GeneralOf(w: World, s: int): Option<Id>
  {
    if 0 <= s < |w.generals| && w.generals[s] in w.units then Some(w.generals[s]) else None
  }

  /** The x direction side 0 advances in is +1; every other side advances towards -1. */
  function Heading(side: int): (h: int)
    ensures h == 1 || h == -1
  {
    if side == 0 then 1 else -1
  }

  /** Python's `%` on a positive modulus, which is also Dafny's. */
  function Opponent(s: int): int
  {
    (s + 1) % 2
  }

  /** Python's `list.remove`: drop the first occurrence. */
  function RemoveFirst<T(==)>(s: seq<T>, x: T): (r: seq<T>)
    requires x in s
    ensures |r| == |s| - 1
    ensures multiset(r) == multiset(s) - multiset{x}
  {
    assert s == [s[0]] + s[1..];
    if s[0] == x then s[1..] else [s[0]] + RemoveFirst(s[1..], x)
  }

  /** A freshly constructed unit: Entity.__init__ defaults plus the given role's stats. */
  function NewUnit(side: int, p: Pos, role: Role, hp: int, power: int, delay: int): Unit
  {
    Unit(side, p.0, p.1, true, false, delay, delay, 0, None, hp, hp, power, map[], Null, [], [], role)
  }
}
