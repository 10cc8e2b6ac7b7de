/** The battle entities of showdown/teams.py: a Team (a roster of at most six
    Pokémon in reveal order plus its side-wide stat stages), its Pokémon, their
    moves, and the merge of late-arriving reference data into them. */
module Teams {
  import opened Wrappers
  import opened PyStr

  // =====================================================================
  // Reference records: what a reference-data lookup delivers
  // =====================================================================

  /** The fields `update_move_data_with_smogon` reads from a delivered move. */
  datatype MoveRecord = MoveRecord(
    name: string,
    moveType: Option<string>,
    category: Option<string>,
    power: Option<string>,
    accuracy: Option<string>,
    description: Option<string>)

  /** The fields `update_pokemons_with_smogon` reads from a delivered species. */
  datatype SpeciesRecord = SpeciesRecord(
    name: string,
    types: seq<string>,
    abilities: seq<string>,
    baseHp: Option<string>,
    baseAttack: Option<string>,
    baseDefense: Option<string>,
    baseSpecialAttack: Option<string>,
    baseSpecialDefense: Option<string>,
    baseSpeed: Option<string>)

  // =====================================================================
  // Move
  // =====================================================================

  /** The state of one Move object. */
  datatype MoveData = MoveData(
    name: string,
    disabled: bool,
    currentPp: int,
    moveType: Option<string>,
    category: Option<string>,
    power: Option<string>,
    accuracy: Option<string>,
    description: Option<string>,
    resolved: bool)

  /** A move after `update_smogon_data` with the record's fields. */
  function Resolve(m: MoveData, rec: MoveRecord): MoveData {
    m.(moveType := rec.moveType, category := rec.category, power := rec.power,
       accuracy := rec.accuracy, description := rec.description, resolved := true)
  }

  /** The move `update_move_data_with_smogon` creates for a delivery:
      `Move(name, None, None, False, 8, None)` then resolved. */
  function NewResolvedMove(n: string, rec: MoveRecord): MoveData {
    Resolve(MoveData(n, false, 8, None, None, None, None, None, false), rec)
  }

  class Move {
    const name: string
    const smogonId: Option<int>
    const target: Option<string>
    const disabled: bool
    const currentPp: int
    const maxPp: Option<int>
    var moveType: Option<string>
    var category: Option<string>
    var power: Option<string>
    var accuracy: Option<string>
    var description: Option<string>
    var resolved: bool

    function Data(): MoveData
      reads this
    {
      MoveData(name, disabled, currentPp, moveType, category, power, accuracy, description, resolved)
    }

    constructor (name: string, smogonId: Option<int>, target: Option<string>,
                 disabled: bool, currentPp: int, maxPp: Option<int>)
      ensures this.name == name && this.smogonId == smogonId && this.target == target
      ensures this.disabled == disabled && this.currentPp == currentPp && this.maxPp == maxPp
      ensures Data() == MoveData(name, disabled, currentPp, None, None, None, None, None, false)
    {
      this.name := name;
      this.smogonId := smogonId;
      this.target := target;
      this.disabled := disabled;
      this.currentPp := currentPp;
      this.maxPp := maxPp;
      moveType, category, power, accuracy, description := None, None, None, None, None;
      resolved := false;
    }

    /** Merge a move's reference data and mark the move resolved. */
    method UpdateSmogonData(moveType: Option<string>, category: Option<string>, power: Option<string>,
                            accuracy: Option<string>, description: Option<string>)
      modifies this
      ensures Data() == old(Data()).(moveType := moveType, category := category, power := power,
                                     accuracy := accuracy, description := description, resolved := true)
    {
      this.moveType := moveType;
      this.power := power;
      this.accuracy := accuracy;
      this.description := description;
      this.category := category;
      resolved := true;
    }

    /** `is_castable`: not disabled and PP left. */
    predicate IsCastable() {
      !disabled && currentPp > 0
    }

    /** `has_name`: exact, case-sensitive comparison. */
    predicate HasName(moveName: string) {
      name == moveName
    }
  }

  /** The states of a list of moves. */
  function MovesData(ms: seq<Move>): (ds: seq<MoveData>)
    reads ms
    ensures |ds| == |ms|
    ensures forall i :: 0 <= i < |ms| ==> ds[i] == ms[i].Data()
  {
    seq(|ms|, i reads ms requires 0 <= i < |ms| => ms[i].Data())
  }

  function MoveNames(ms: seq<Move>): (r: seq<string>)
    ensures |r| == |ms|
    ensures forall i :: 0 <= i < |ms| ==> r[i] == ms[i].name
  {
    seq(|ms|, i requires 0 <= i < |ms| => ms[i].name)
  }

  function DataNames(ds: seq<MoveData>): (r: seq<string>)
    ensures |r| == |ds|
    ensures forall i :: 0 <= i < |ds| ==> r[i] == ds[i].name
  {
    seq(|ds|, i requires 0 <= i < |ds| => ds[i].name)
  }

  lemma DataNamesOfMoves(ms: seq<Move>)
    ensures DataNames(MovesData(ms)) == MoveNames(ms)
  {
  }

  /** The first position holding `n`, as a left-to-right search finds it. */
  function FirstIndex(xs: seq<string>, n: string): (r: Option<nat>)
    ensures r.None? <==> n !in xs
    ensures r.Some? ==> r.value < |xs| && xs[r.value] == n && n !in xs[..r.value]
  {
    if xs == [] then None
    else if xs[0] == n then Some(0)
    else match FirstIndex(xs[1..], n)
      case None => None
      case Some(i) =>
        assert xs[..i + 1] == [xs[0]] + xs[1..][..i];
        Some(i + 1)
  }

  /** The moves of a list that `is_castable`, in list order (teams.py:399-405). */
  function Castable(ms: seq<Move>): (r: seq<Move>)
    ensures |r| <= |ms|
    ensures forall i :: 0 <= i < |r| ==> r[i] in ms && r[i].IsCastable()
    ensures forall i :: 0 <= i < |ms| && ms[i].IsCastable() ==> ms[i] in r
  {
    if ms == [] then []
    else Castable(ms[..|ms| - 1]) + (if Last(ms).IsCastable() then [Last(ms)] else [])
  }

  /** Castable moves keep the list order: a further move is kept at the end
      exactly when it is castable. */
  lemma CastableSnoc(ms: seq<Move>, m: Move)
    ensures Castable(ms + [m]) == Castable(ms) + (if m.IsCastable() then [m] else [])
  {
    assert (ms + [m])[..|ms|] == ms;
  }

  // =====================================================================
  // Delivering a move record to a Pokémon (teams.py:407-459)
  // =====================================================================

  /** The effect of one slot name of `moves_names` on the list of complete moves. */
  function DeliverStep(n: string, active: bool, ms: seq<MoveData>, rec: MoveRecord): seq<MoveData> {
    if rec.name != n then ms
    else if active then
      match FirstIndex(DataNames(ms), n)
      case Some(i) => ms[i := Resolve(ms[i], rec)]
      // the "temporary fix" appends a move, then the inactive branch appends another
      case None => ms + [NewResolvedMove(n, rec)] + [NewResolvedMove(n, rec)]
    else ms + [NewResolvedMove(n, rec)]
  }

  /** The complete moves after the slot names `names` have been visited in order. */
  function Deliver(names: seq<string>, active: bool, ms: seq<MoveData>, rec: MoveRecord): seq<MoveData>
    decreases |names|
  {
    if names == [] then ms
    else DeliverStep(Last(names), active, Deliver(names[..|names| - 1], active, ms, rec), rec)
  }

  // =====================================================================
  // Synchronisation check (teams.py:361-397 and 90-104)
  // =====================================================================

  /** The names of `names` absent from `known`, in order (teams.py:375-381). */
  function Missing(names: seq<string>, known: seq<string>): (r: seq<string>)
    ensures |r| <= |names|
    ensures forall x :: x in r <==> x in names && x !in known
    ensures (forall x :: x in names ==> x in known) ==> r == []
  {
    if names == [] then []
    else
      assert names == names[..|names| - 1] + [Last(names)];
      Missing(names[..|names| - 1], known) + (if Last(names) in known then [] else [Last(names)])
  }

  /** The names to resend keep the order of `names`: a further slot name is
      added at the end exactly when it is unknown, repeats included. */
  lemma MissingSnoc(names: seq<string>, x: string, known: seq<string>)
    ensures Missing(names + [x], known) == Missing(names, known) + (if x in known then [] else [x])
  {
    assert (names + [x])[..|names|] == names;
  }

  /** When no slot name is known, every slot name is resent, in order and with
      its repeats. */
  lemma {:induction false} MissingNoneKnown(names: seq<string>, known: seq<string>)
    requires forall k :: 0 <= k < |names| ==> names[k] !in known
    ensures Missing(names, known) == names
    decreases |names|
  {
    if names != [] {
      var init := names[..|names| - 1];
      MissingNoneKnown(init, known);
      assert Missing(names, known) == init + [Last(names)];
    }
  }

  /** The first move not yet resolved. */
  function FirstUnresolved(ms: seq<MoveData>): (r: Option<nat>)
    ensures r.None? <==> forall k :: 0 <= k < |ms| ==> ms[k].resolved
    ensures r.Some? ==> r.value < |ms| && !ms[r.value].resolved
                        && forall k :: 0 <= k < r.value ==> ms[k].resolved
  {
    if ms == [] then None
    else if !ms[0].resolved then Some(0)
    else match FirstUnresolved(ms[1..])
      case None => None
      case Some(i) => Some(i + 1)
  }

  /** What `has_been_updated_with_smogon` returns for a Pokémon with slot names
      `names`, complete moves `ms`, own resolved flag and name. */
  function SyncStatus(names: seq<string>, ms: seq<MoveData>, resolved: bool, name: string): (r: (bool, seq<string>))
    ensures r.0 <==> |ms| == |names| && (forall k :: 0 <= k < |ms| ==> ms[k].resolved) && resolved
    ensures r.0 ==> r.1 == []
    ensures |ms| != |names| ==> r.1 == Missing(names, DataNames(ms))
    ensures |ms| == |names| && FirstUnresolved(ms).Some? ==> r == (false, [ms[FirstUnresolved(ms).value].name])
    ensures |ms| == |names| && FirstUnresolved(ms).None? && !resolved ==> r == (false, [name])
  {
    if |ms| != |names| then (false, Missing(names, DataNames(ms)))
    else match FirstUnresolved(ms)
      case Some(i) => (false, [ms[i].name])
      case None => if resolved then (true, []) else (false, [name])
  }

  /** The answer of the first failing member, else success (teams.py:90-104). */
  function FirstFailure(sts: seq<(bool, seq<string>)>): (r: (bool, seq<string>))
    ensures r.0 <==> forall k :: 0 <= k < |sts| ==> sts[k].0
    ensures r.0 ==> r.1 == []
    ensures !r.0 ==> exists k :: 0 <= k < |sts| && r == sts[k] && forall j :: 0 <= j < k ==> sts[j].0
  {
    if sts == [] then (true, [])
    else if !sts[0].0 then sts[0]
    else
      var r := FirstFailure(sts[1..]);
      assert !r.0 ==> exists k :: 1 <= k < |sts| && r == sts[k] && forall j :: 0 <= j < k ==> sts[j].0 by {
        if !r.0 {
          var k :| 0 <= k < |sts[1..]| && r == sts[1..][k] && forall j :: 0 <= j < k ==> sts[1..][j].0;
          assert r == sts[k + 1];
          assert forall j :: 0 <= j < k + 1 ==> sts[j].0 by {
            forall j | 0 <= j < k + 1 ensures sts[j].0 {
              if j > 0 { assert sts[j] == sts[1..][j - 1]; }
            }
          }
        }
      }
      r
  }

  // =====================================================================
  // Opponent stat derivation (teams.py:233-256)
  // =====================================================================

  /** Python's `int(x)` on a real: truncation toward zero. */
  function Trunc(r: real): int {
    if r >= 0.0 then r.Floor else -((-r).Floor)
  }

  /** Python's `int(x)` on a field that holds text or None. */
  function IntOf(x: Option<string>): Result<int, Exception> {
    match x
    case None => Err(TypeError)
    case Some(s) => IntOfText(s)
  }

  function IntOfText(s: string): Result<int, Exception> {
    match ParseInt(s)
    case None => Err(ValueError)
    case Some(v) => Ok(v)
  }

  /** `int(((2*hp+iv)*lvl)/100+lvl+10)+17` with iv = 31. */
  function DerivedHp(base: int, level: int): int {
    Trunc(((2 * base + 31) * level) as real / 100.0 + (level + 10) as real) + 17
  }

  /** `int(((2*b+iv)*lvl)/100+5)+17` with iv = 31. */
  function DerivedStat(base: int, level: int): int {
    Trunc(((2 * base + 31) * level) as real / 100.0 + 5.0) + 17
  }

  datatype DerivedStats = DerivedStats(hp: int, attack: int, defense: int,
                                       specialAttack: int, specialDefense: int, speed: int)

  /** For non-negative values the formula is integer arithmetic. */
  lemma {:induction false} FloorOfQuotientPlus(x: nat, k: int)
    ensures (x as real / 100.0 + k as real).Floor == x / 100 + k
  {
    var q, m := x / 100, x % 100;
    assert x == 100 * q + m;
    assert x as real / 100.0 + k as real == (q + k) as real + m as real / 100.0;
    assert 0.0 <= m as real / 100.0 < 1.0;
  }

  lemma DerivedClosedForm(base: nat, level: nat)
    ensures DerivedHp(base, level) == (2 * base + 31) * level / 100 + level + 27
    ensures DerivedStat(base, level) == (2 * base + 31) * level / 100 + 22
  {
    var x: nat := (2 * base + 31) * level;
    FloorOfQuotientPlus(x, level + 10);
    FloorOfQuotientPlus(x, 5);
    assert 5.0 == 5 as real;
  }

  /** A higher base stat never derives a lower stat at the same level. */
  lemma DerivedStatMonotonic(b1: nat, b2: nat, level: nat)
    requires b1 >= b2
    ensures DerivedStat(b1, level) >= DerivedStat(b2, level)
    ensures DerivedHp(b1, level) >= DerivedHp(b2, level)
  {
    DerivedClosedForm(b1, level);
    DerivedClosedForm(b2, level);
    assert (2 * b1 + 31) * level >= (2 * b2 + 31) * level by {
      assert (2 * b1 + 31) * level - (2 * b2 + 31) * level == 2 * (b1 - b2) * level;
    }
  }

  // =====================================================================
  // Pokémon
  // =====================================================================

  /** The six stats a Pokémon shows in battle, as text (`max_hp`, `attack`,
      `defense`, `special_attack`, `special_defense`, `speed`). */
  datatype Stats = Stats(
    maxHp: string,
    attack: string,
    defense: string,
    specialAttack: string,
    specialDefense: string,
    speed: string)

  /** The six base stats of a species, None until reference data arrives. */
  datatype BaseStats = BaseStats(
    hp: Option<string>,
    attack: Option<string>,
    defense: Option<string>,
    specialAttack: Option<string>,
    specialDefense: Option<string>,
    speed: Option<string>)

  const NoBaseStats := BaseStats(None, None, None, None, None, None)

  /** The state of one Pokemon object, its list of Move objects aside. */
  datatype PokemonData = PokemonData(
    name: string,
    smogonId: Option<int>,
    level: string,
    gender: Option<string>,
    currentHp: string,
    stats: Stats,
    base: BaseStats,
    item: string,
    ability: string,
    baseAbility: string,
    abilities: seq<string>,
    movesNames: seq<string>,
    active: bool,
    types: seq<string>,
    resolved: bool)

  /** `get_name` renames "EiscueNoice" to "Eiscue" before answering. */
  function CanonicalName(n: string): string {
    if n == EiscueNoice then Eiscue else n
  }

  const EiscueNoice: string := "EiscueNoice"
  const Eiscue: string := "Eiscue"

  /** `has_name`: names compared after `lower()`. */
  predicate SameNameIgnoringCase(a: string, b: string) {
    Lower(a) == Lower(b)
  }

  /** Converting the six base stats and the level, in the source's order
      (teams.py:236-242); the first failing conversion raises. */
  function DeriveStats(base: BaseStats, level: string): Result<DerivedStats, Exception> {
    var hp :- IntOf(base.hp);
    var attack :- IntOf(base.attack);
    var defense :- IntOf(base.defense);
    var specialAttack :- IntOf(base.specialAttack);
    var specialDefense :- IntOf(base.specialDefense);
    var speed :- IntOf(base.speed);
    var lvl :- IntOfText(level);
    Ok(DerivedStats(DerivedHp(hp, lvl), DerivedStat(attack, lvl), DerivedStat(defense, lvl),
                    DerivedStat(specialAttack, lvl), DerivedStat(specialDefense, lvl),
                    DerivedStat(speed, lvl)))
  }

  /** The derived values as the setters store them: `str(...)`. */
  function ShowStats(s: DerivedStats): Stats {
    Stats(Show(s.hp), Show(s.attack), Show(s.defense),
          Show(s.specialAttack), Show(s.specialDefense), Show(s.speed))
  }

  /** The Pokémon after `set_stats_enemy_pokemon`: unchanged when it raises. */
  function WithDerivedStats(d: PokemonData): PokemonData {
    match DeriveStats(d.base, d.level)
    case Err(_) => d
    case Ok(s) => d.(stats := ShowStats(s))
  }

  function SpeciesBase(rec: SpeciesRecord): BaseStats {
    BaseStats(rec.baseHp, rec.baseAttack, rec.baseDefense,
              rec.baseSpecialAttack, rec.baseSpecialDefense, rec.baseSpeed)
  }

  /** A Pokémon after `update_smogon_data` with a species record. */
  function ResolveSpecies(d: PokemonData, rec: SpeciesRecord): PokemonData {
    d.(types := rec.types, abilities := rec.abilities, base := SpeciesBase(rec), resolved := true)
  }

  class Pokemon {
    var name: string
    const smogonId: Option<int>
    const level: string
    const gender: Option<string>
    var currentHp: string
    /** `max_hp`, `attack`, `defense`, `special_attack`, `special_defense`, `speed`. */
    var stats: Stats
    /** `base_hp` … `base_speed`. */
    var base: BaseStats
    const item: string
    const ability: string
    const baseAbility: string
    var abilities: seq<string>
    const movesNames: seq<string>
    var completeMoves: seq<Move>
    var active: bool
    var types: seq<string>
    var resolved: bool

    function Data(): PokemonData
      reads this
    {
      PokemonData(name, smogonId, level, gender, currentHp, stats, base,
                  item, ability, baseAbility, abilities, movesNames, active, types, resolved)
    }

    /** No Move object appears twice in the list of complete moves. */
    predicate DistinctMoves()
      reads this
    {
      forall i, j :: 0 <= i < j < |completeMoves| ==> completeMoves[i] != completeMoves[j]
    }

    /** The smogon id stored is the given roster index plus one (teams.py:157-160). */
    constructor (name: string, smogonId: Option<int>, level: string, gender: Option<string>,
                 currentHp: string, maxHp: string,
                 attack: string, defense: string, specialAttack: string, specialDefense: string, speed: string,
                 move1: string, move2: string, move3: string, move4: string,
                 ability: string, baseAbility: string, item: string, active: bool)
      ensures Data() == PokemonData(name, (match smogonId case Some(i) => Some(i + 1) case None => None),
                                    level, gender, currentHp,
                                    Stats(maxHp, attack, defense, specialAttack, specialDefense, speed),
                                    NoBaseStats, item, ability, baseAbility, [],
                                    [move1, move2, move3, move4], active, [], false)
      ensures completeMoves == []
      ensures DistinctMoves()
    {
      this.name := name;
      this.smogonId := match smogonId case Some(i) => Some(i + 1) case None => None;
      this.level := level;
      this.gender := gender;
      this.currentHp := currentHp;
      stats := Stats(maxHp, attack, defense, specialAttack, specialDefense, speed);
      base := NoBaseStats;
      this.item := item;
      this.ability := ability;
      this.baseAbility := baseAbility;
      abilities := [];
      movesNames := [move1, move2, move3, move4];
      completeMoves := [];
      this.active := active;
      types := [];
      resolved := false;
    }

    /** Merge a species' reference data and mark the Pokémon resolved. */
    method UpdateSmogonData(rec: SpeciesRecord)
      modifies this`types, this`abilities, this`base, this`resolved
      ensures Data() == ResolveSpecies(old(Data()), rec)
    {
      types := rec.types;
      abilities := rec.abilities;
      base := SpeciesBase(rec);
      resolved := true;
    }

    /** Overwrite max HP and the five battle stats with the values derived from
        the base stats and the level, stored as text; every conversion happens
        before the first write, so a failing one leaves the Pokémon unchanged. */
    method SetStatsEnemyPokemon() returns (err: Option<Exception>)
      modifies this`stats
      ensures err == (match DeriveStats(base, level) case Err(e) => Some(e) case Ok(_) => None)
      ensures Data() == WithDerivedStats(old(Data()))
    {
      var derived := DeriveStats(base, level);
      if derived.Err? {
        return Some(derived.error);
      }
      stats := ShowStats(derived.value);
      err := None;
    }

    predicate HasName(pokemonName: string)
      reads this
    {
      SameNameIgnoringCase(name, pokemonName)
    }

    method MakeActive()
      modifies this`active
      ensures active
    {
      active := true;
    }

    method MakeInactive()
      modifies this`active
      ensures !active
    {
      active := false;
    }

    /** `get_name` answers the name after renaming "EiscueNoice". */
    method GetName() returns (n: string)
      modifies this`name
      ensures name == CanonicalName(old(name)) && n == name
    {
      if name == EiscueNoice {
        name := Eiscue;
      }
      n := name;
    }

    /** One iteration of `get_possible_pokemon_switch`: a candidate is renamed by
        `get_name` and contributes its name. */
    method SwitchVisit() returns (picked: seq<string>)
      modifies this`name
      ensures Data() == SwitchVisited(old(Data()))
      ensures picked == if SwitchCandidate(old(Data())) then [CanonicalName(old(name))] else []
    {
      picked := [];
      if HpDiffersFromIntZero(currentHp) && !active {
        var n := GetName();
        picked := [n];
      }
    }

    /** The first complete move with exactly this name, or null. */
    method GetMove(moveName: string) returns (m: Move?)
      ensures m == (match FirstIndex(MoveNames(completeMoves), moveName)
                    case Some(i) => completeMoves[i]
                    case None => null)
    {
      for k := 0 to |completeMoves|
        invariant moveName !in MoveNames(completeMoves)[..k]
      {
        if completeMoves[k].HasName(moveName) {
          assert MoveNames(completeMoves)[k] == moveName;
          return completeMoves[k];
        }
        assert MoveNames(completeMoves)[..k + 1] == MoveNames(completeMoves)[..k] + [completeMoves[k].name];
      }
      assert MoveNames(completeMoves)[..|completeMoves|] == MoveNames(completeMoves);
      return null;
    }

    /** The complete moves that are castable, in order. */
    method GetPossibleMoves() returns (moves: seq<Move>)
      ensures moves == Castable(completeMoves)
    {
      moves := [];
      for k := 0 to |completeMoves|
        invariant moves == Castable(completeMoves[..k])
      {
        assert completeMoves[..k + 1][..k] == completeMoves[..k];
        if completeMoves[k].IsCastable() {
          moves := moves + [completeMoves[k]];
        }
      }
      assert completeMoves[..|completeMoves|] == completeMoves;
    }

    /** `has_been_updated_with_smogon`: whether this Pokémon and all its moves are
        resolved, and otherwise the names to look up again. */
    method HasBeenUpdatedWithSmogon() returns (ok: bool, pending: seq<string>)
      ensures (ok, pending) == SyncStatus(movesNames, MovesData(completeMoves), resolved, name)
    {
      DataNamesOfMoves(completeMoves);
      if |completeMoves| != |movesNames| {
        var known: seq<string> := [];
        for k := 0 to |completeMoves|
          invariant known == MoveNames(completeMoves[..k])
        {
          known := known + [completeMoves[k].name];
        }
        assert completeMoves[..|completeMoves|] == completeMoves;
        pending := [];
        for k := 0 to |movesNames|
          invariant pending == Missing(movesNames[..k], known)
        {
          assert movesNames[..k + 1][..k] == movesNames[..k];
          if movesNames[k] !in known {
            pending := pending + [movesNames[k]];
          }
        }
        assert movesNames[..|movesNames|] == movesNames;
        return false, pending;
      }
      for k := 0 to |completeMoves|
        invariant forall j :: 0 <= j < k ==> completeMoves[j].resolved
      {
        if !completeMoves[k].resolved {
          return false, [completeMoves[k].name];
        }
      }
      if !resolved {
        return false, [name];
      }
      return true, [];
    }

    /** Deliver a move record: every slot name equal to the record's name either
        updates the existing move in place (active Pokémon holding it) or appends
        new resolved moves. */
    method UpdateMoveDataWithSmogon(rec: MoveRecord)
      requires DistinctMoves()
      modifies this`completeMoves, completeMoves
      ensures DistinctMoves()
      ensures old(completeMoves) <= completeMoves
      ensures forall k :: |old(completeMoves)| <= k < |completeMoves| ==> fresh(completeMoves[k])
      ensures MovesData(completeMoves) == Deliver(movesNames, active, old(MovesData(completeMoves)), rec)
    {
      for k := 0 to |movesNames|
        invariant DistinctMoves()
        invariant old(completeMoves) <= completeMoves
        invariant forall j :: |old(completeMoves)| <= j < |completeMoves| ==> fresh(completeMoves[j])
        invariant MovesData(completeMoves) == Deliver(movesNames[..k], active, old(MovesData(completeMoves)), rec)
      {
        assert movesNames[..k + 1][..k] == movesNames[..k];
        DeliverSlot(movesNames[k], rec);
      }
      assert movesNames[..|movesNames|] == movesNames;
    }

    /** The loop body of `update_move_data_with_smogon` for one slot name. */
    method DeliverSlot(moveName: string, rec: MoveRecord)
      requires DistinctMoves()
      modifies this`completeMoves, completeMoves
      ensures DistinctMoves()
      ensures old(completeMoves) <= completeMoves
      ensures forall j :: |old(completeMoves)| <= j < |completeMoves| ==> fresh(completeMoves[j])
      ensures MovesData(completeMoves) == DeliverStep(moveName, active, old(MovesData(completeMoves)), rec)
    {
      if rec.name == moveName {
        var trapping := false;
        if active {
          trapping := DeliverToActive(moveName, rec);
        }
        if !active || trapping {
          AppendResolved(moveName, rec);
        }
      }
    }

    /** An active Pokémon updates the move it holds under this name in place;
        when it holds none, one resolved move is appended and `trapping` is set
        (the caller then appends a second one). */
    method DeliverToActive(moveName: string, rec: MoveRecord) returns (trapping: bool)
      requires DistinctMoves()
      modifies this`completeMoves, completeMoves
      ensures DistinctMoves()
      ensures old(completeMoves) <= completeMoves
      ensures forall j :: |old(completeMoves)| <= j < |completeMoves| ==> fresh(completeMoves[j])
      ensures trapping <==> FirstIndex(DataNames(old(MovesData(completeMoves))), moveName).None?
      ensures MovesData(completeMoves) ==
                match FirstIndex(DataNames(old(MovesData(completeMoves))), moveName)
                case Some(i) => old(MovesData(completeMoves))[i := Resolve(old(MovesData(completeMoves))[i], rec)]
                case None => old(MovesData(completeMoves)) + [NewResolvedMove(moveName, rec)]
    {
      DataNamesOfMoves(completeMoves);
      var pokMove := GetMove(moveName);
      if pokMove != null {
        UpdateExisting(pokMove, moveName, rec);
        trapping := false;
      } else {
        AppendResolved(moveName, rec);
        trapping := true;
      }
    }

    /** Update the first complete move named `moveName` in place. */
    method UpdateExisting(pokMove: Move, moveName: string, rec: MoveRecord)
      requires DistinctMoves()
      requires FirstIndex(MoveNames(completeMoves), moveName).Some?
      requires pokMove == completeMoves[FirstIndex(MoveNames(completeMoves), moveName).value]
      modifies pokMove
      ensures DistinctMoves()
      ensures MovesData(completeMoves) == old(MovesData(completeMoves))[FirstIndex(MoveNames(completeMoves), moveName).value := Resolve(old(pokMove.Data()), rec)]
    {
      var i := FirstIndex(MoveNames(completeMoves), moveName).value;
      pokMove.UpdateSmogonData(rec.moveType, rec.category, rec.power, rec.accuracy, rec.description);
      forall j | 0 <= j < |completeMoves| && j != i
        ensures completeMoves[j].Data() == old(completeMoves[j].Data())
      {
        assert completeMoves[j] != pokMove;
      }
    }

    /** Append a fresh resolved move for `moveName`. */
    method AppendResolved(moveName: string, rec: MoveRecord)
      requires DistinctMoves()
      modifies this`completeMoves
      ensures DistinctMoves()
      ensures |completeMoves| == |old(completeMoves)| + 1
      ensures completeMoves[..|old(completeMoves)|] == old(completeMoves)
      ensures fresh(completeMoves[|old(completeMoves)|])
      ensures MovesData(completeMoves) == old(MovesData(completeMoves)) + [NewResolvedMove(moveName, rec)]
    {
      var newMove := new Move(moveName, None, None, false, 8, None);
      newMove.UpdateSmogonData(rec.moveType, rec.category, rec.power, rec.accuracy, rec.description);
      completeMoves := completeMoves + [newMove];
      assert completeMoves[..|old(completeMoves)|] == old(completeMoves);
    }
  }

  /** The states of a list of Pokémon. */
  function Datas(ps: seq<Pokemon>): (ds: seq<PokemonData>)
    reads ps
    ensures |ds| == |ps|
    ensures forall i :: 0 <= i < |ps| ==> ds[i] == ps[i].Data()
  {
    seq(|ps|, i reads ps requires 0 <= i < |ps| => ps[i].Data())
  }

  /** The Pokemon objects of a roster. */
  function Members(ps: seq<Pokemon>): (r: set<Pokemon>)
    ensures forall k :: 0 <= k < |ps| ==> ps[k] in r
  {
    if ps == [] then {} else Members(ps[..|ps| - 1]) + {Last(ps)}
  }

  lemma MembersSnoc(ps: seq<Pokemon>, i: nat)
    requires i < |ps|
    ensures Members(ps[..i + 1]) == Members(ps[..i]) + {ps[i]}
  {
    assert ps[..i + 1][..i] == ps[..i];
  }

  /** The lists of Move objects of a list of Pokémon. */
  function MovesOf(ps: seq<Pokemon>): (r: seq<seq<Move>>)
    reads ps
    ensures |r| == |ps|
    ensures forall i :: 0 <= i < |ps| ==> r[i] == ps[i].completeMoves
  {
    seq(|ps|, i reads ps requires 0 <= i < |ps| => ps[i].completeMoves)
  }

  /** `has_been_updated_with_smogon` of a Pokemon object. */
  function PokemonStatus(p: Pokemon): (bool, seq<string>)
    reads p, p.completeMoves
  {
    SyncStatus(p.movesNames, MovesData(p.completeMoves), p.resolved, p.name)
  }

  /** Every Move object held by a member of `ps`. */
  function AllMoves(ps: seq<Pokemon>): (r: set<Move>)
    reads ps
    ensures forall i, m :: 0 <= i < |ps| && m in ps[i].completeMoves ==> m in r
  {
    set p, m | p in ps && m in p.completeMoves :: m
  }

  function Statuses(ps: seq<Pokemon>): (r: seq<(bool, seq<string>)>)
    reads ps, AllMoves(ps)
    ensures |r| == |ps|
    ensures forall i :: 0 <= i < |ps| ==> r[i] == PokemonStatus(ps[i])
  {
    if ps == [] then []
    else
      var init := ps[..|ps| - 1];
      assert forall i :: 0 <= i < |init| ==> init[i] == ps[i];
      Statuses(init) + [PokemonStatus(Last(ps))]
  }

  // ---------------------------------------------------------------- per-member visits

  /** A member after the visit of `set_all_pokemons_to_inactive`. */
  function Deactivated(d: PokemonData): PokemonData {
    d.(active := false)
  }

  /** A member after the visit of `make_pokemon_active(n)`. */
  function ActivatedIfNamed(d: PokemonData, n: string): PokemonData {
    if SameNameIgnoringCase(d.name, n) then d.(active := true) else d
  }

  /** `pokemon.get_current_hp() != 0`: the HP is text, and in Python text never
      equals the integer 0, so the comparison holds for every member. */
  predicate HpDiffersFromIntZero(hp: string) {
    true
  }

  /** The test of `get_possible_pokemon_switch` as written (teams.py:74). */
  predicate SwitchCandidate(d: PokemonData) {
    HpDiffersFromIntZero(d.currentHp) && !d.active
  }

  /** A member after the visit of `get_possible_pokemon_switch`: `get_name` runs
      for candidates only. */
  function SwitchVisited(d: PokemonData): PokemonData {
    if SwitchCandidate(d) then d.(name := CanonicalName(d.name)) else d
  }

  /** The names `get_possible_pokemon_switch` returns for members in this state. */
  function SwitchNames(ds: seq<PokemonData>): (r: seq<string>)
    ensures |r| <= |ds|
  {
    if ds == [] then []
    else SwitchNames(ds[..|ds| - 1]) + (if SwitchCandidate(Last(ds)) then [CanonicalName(Last(ds).name)] else [])
  }

  lemma SwitchNamesSnoc(ds: seq<PokemonData>, i: nat)
    requires i < |ds|
    ensures SwitchNames(ds[..i + 1]) == SwitchNames(ds[..i])
              + (if SwitchCandidate(ds[i]) then [CanonicalName(ds[i].name)] else [])
  {
    assert ds[..i + 1][..i] == ds[..i];
  }

  /** Visiting a member twice for a switch has the effect of visiting it once. */
  lemma SwitchVisitStable(d: PokemonData)
    ensures SwitchVisited(SwitchVisited(d)) == SwitchVisited(d)
    ensures SwitchCandidate(SwitchVisited(d)) == SwitchCandidate(d)
    ensures CanonicalName(SwitchVisited(d).name) == CanonicalName(d.name)
  {
  }

  /** A member after the visit of `update_pokemons_with_smogon`. */
  function SpeciesVisited(d: PokemonData, rec: SpeciesRecord): PokemonData {
    var renamed := d.(name := CanonicalName(d.name));
    if SameNameIgnoringCase(rec.name, renamed.name) then ResolveSpecies(renamed, rec) else renamed
  }

  // =====================================================================
  // Side-wide stat stages (teams.py:574-611)
  // =====================================================================

  datatype StatStages = StatStages(attack: int, defense: int, specialAttack: int,
                                   specialDefense: int, speed: int)

  const NoStages := StatStages(0, 0, 0, 0, 0)

  predicate IsStageName(stat: string) {
    stat == "atk" || stat == "def" || stat == "spa" || stat == "spd" || stat == "spe"
  }

  /** Add `delta` to the counter `stat` names. */
  function AdjustStage(s: StatStages, stat: string, delta: int): StatStages {
    if stat == "atk" then s.(attack := s.attack + delta)
    else if stat == "def" then s.(defense := s.defense + delta)
    else if stat == "spa" then s.(specialAttack := s.specialAttack + delta)
    else if stat == "spd" then s.(specialDefense := s.specialDefense + delta)
    else if stat == "spe" then s.(speed := s.speed + delta)
    else s
  }

  /** `raise_stat` (sign 1) or `lower_stat` (sign -1): `int(levels)` is evaluated
      only for a known counter, and raises ValueError before any change. */
  function Boost(s: StatStages, stat: string, levels: string, sign: int): Result<StatStages, Exception> {
    if !IsStageName(stat) then Ok(s)
    else match ParseInt(levels)
      case None => Err(ValueError)
      case Some(v) => Ok(AdjustStage(s, stat, sign * v))
  }

  class SideBuffs {
    var attack: int
    var defense: int
    var specialAttack: int
    var specialDefense: int
    var speed: int

    function Counters(): StatStages
      reads this
    {
      StatStages(attack, defense, specialAttack, specialDefense, speed)
    }

    constructor ()
      ensures Counters() == NoStages
    {
      attack, defense, specialAttack, specialDefense, speed := 0, 0, 0, 0, 0;
    }

    method RaiseStat(stat: string, levels: string) returns (err: Option<Exception>)
      modifies this
      ensures match Boost(old(Counters()), stat, levels, 1)
              case Ok(s) => err.None? && Counters() == s
              case Err(e) => err == Some(e) && Counters() == old(Counters())
    {
      err := Change(stat, levels, 1);
    }

    method LowerStat(stat: string, levels: string) returns (err: Option<Exception>)
      modifies this
      ensures match Boost(old(Counters()), stat, levels, -1)
              case Ok(s) => err.None? && Counters() == s
              case Err(e) => err == Some(e) && Counters() == old(Counters())
    {
      err := Change(stat, levels, -1);
    }

    /** The five `if stat_name == ...` branches shared by raise and lower. */
    method Change(stat: string, levels: string, sign: int) returns (err: Option<Exception>)
      modifies this
      ensures match Boost(old(Counters()), stat, levels, sign)
              case Ok(s) => err.None? && Counters() == s
              case Err(e) => err == Some(e) && Counters() == old(Counters())
    {
      var parsed := ParseInt(levels);
      if IsStageName(stat) && parsed.None? {
        return Some(ValueError);
      }
      if stat == "atk" {
        attack := attack + sign * parsed.value;
      }
      if stat == "def" {
        defense := defense + sign * parsed.value;
      }
      if stat == "spa" {
        specialAttack := specialAttack + sign * parsed.value;
      }
      if stat == "spd" {
        specialDefense := specialDefense + sign * parsed.value;
      }
      if stat == "spe" {
        speed := speed + sign * parsed.value;
      }
      err := None;
    }

    method Reset()
      modifies this
      ensures Counters() == NoStages
    {
      attack, defense, specialAttack, specialDefense, speed := 0, 0, 0, 0, 0;
    }
  }

  /** Each member's list of Move objects is the one recorded in `moves`. */
  ghost predicate MovesAre(ps: seq<Pokemon>, moves: seq<seq<Move>>)
    reads ps
  {
    |moves| == |ps| && forall k :: 0 <= k < |ps| ==> ps[k].completeMoves == moves[k]
  }

  /** The members in `seen` have had their switch visit, the others are as
      recorded in `before`. */
  ghost predicate SwitchVisitedSoFar(ps: seq<Pokemon>, seen: set<Pokemon>, before: seq<PokemonData>)
    reads ps
  {
    |before| == |ps| &&
    forall k :: 0 <= k < |ps| ==> ps[k].Data() == if ps[k] in seen then SwitchVisited(before[k]) else before[k]
  }

  /** One iteration of `get_possible_pokemon_switch` over the roster `ps`. */
  method SwitchStep(ps: seq<Pokemon>, i: nat, ghost seen: set<Pokemon>, ghost before: seq<PokemonData>,
                    ghost moves: seq<seq<Move>>) returns (picked: seq<string>)
    requires i < |ps| && SwitchVisitedSoFar(ps, seen, before) && MovesAre(ps, moves)
    modifies ps[i]
    ensures SwitchVisitedSoFar(ps, seen + {ps[i]}, before) && MovesAre(ps, moves)
    ensures picked == if SwitchCandidate(before[i]) then [CanonicalName(before[i].name)] else []
  {
    SwitchVisitStable(before[i]);
    picked := ps[i].SwitchVisit();
    forall k | 0 <= k < |ps| && ps[k] == ps[i]
      ensures ps[k].Data() == SwitchVisited(before[k])
    {
      SwitchVisitStable(before[k]);
    }
  }

  /** No member appears twice, and no Move object is shared: the shape every
      roster built by the battle code has. */
  ghost predicate Separate(ps: seq<Pokemon>)
    reads ps
  {
    DistinctMembers(ps) && EachDistinctMoves(ps) && NoSharedMoves(ps)
  }

  ghost predicate DistinctMembers(ps: seq<Pokemon>) {
    forall i, j :: 0 <= i < j < |ps| ==> ps[i] != ps[j]
  }

  ghost predicate EachDistinctMoves(ps: seq<Pokemon>)
    reads ps
  {
    forall i :: 0 <= i < |ps| ==> ps[i].DistinctMoves()
  }

  ghost predicate NoSharedMoves(ps: seq<Pokemon>)
    reads ps
  {
    forall i, j, m :: 0 <= i < |ps| && 0 <= j < |ps| && i != j && m in ps[i].completeMoves
                      ==> m !in ps[j].completeMoves
  }

  /** The states of the lists of Move objects of a list of Pokémon. */
  function MovesDatas(ps: seq<Pokemon>): (r: seq<seq<MoveData>>)
    reads ps, AllMoves(ps)
    ensures |r| == |ps|
    ensures forall i :: 0 <= i < |ps| ==> r[i] == MovesData(ps[i].completeMoves)
  {
    if ps == [] then []
    else
      var init := ps[..|ps| - 1];
      assert forall i :: 0 <= i < |init| ==> init[i] == ps[i];
      MovesDatas(init) + [MovesData(Last(ps).completeMoves)]
  }

  ghost predicate DatasAre(ps: seq<Pokemon>, datas: seq<PokemonData>)
    reads ps
  {
    |datas| == |ps| && forall k :: 0 <= k < |ps| ==> ps[k].Data() == datas[k]
  }

  /** The members before index `i` hold the Move states `after`; the others
      still hold the Move objects `moves` in the states `before`. */
  ghost predicate DeliveredUpTo(ps: seq<Pokemon>, i: nat, after: seq<seq<MoveData>>,
                                before: seq<seq<MoveData>>, moves: seq<seq<Move>>)
    reads ps, AllMoves(ps)
  {
    && i <= |ps| && |after| == |ps| && |before| == |ps| && |moves| == |ps|
    && (forall k :: 0 <= k < i ==> MovesData(ps[k].completeMoves) == after[k])
    && (forall k :: i <= k < |ps| ==> ps[k].completeMoves == moves[k] && MovesData(moves[k]) == before[k])
  }

  /** One iteration of `update_moves_with_smogon`, stated over the snapshots the
      roster loop keeps. */
  method DeliverToMember(ps: seq<Pokemon>, i: nat, rec: MoveRecord, ghost datas: seq<PokemonData>,
                         ghost after: seq<seq<MoveData>>, ghost before: seq<seq<MoveData>>,
                         ghost moves: seq<seq<Move>>)
    requires i < |ps| && Separate(ps) && DatasAre(ps, datas) && DeliveredUpTo(ps, i, after, before, moves)
    requires after[i] == Deliver(ps[i].movesNames, datas[i].active, before[i], rec)
    modifies ps[i], ps[i].completeMoves
    ensures Separate(ps) && DatasAre(ps, datas) && DeliveredUpTo(ps, i + 1, after, before, moves)
  {
    ReceiveAt(ps, i, rec);
  }

  /** Member `i` receives the record, and nothing any other member holds changes. */
  method ReceiveAt(ps: seq<Pokemon>, i: nat, rec: MoveRecord)
    requires i < |ps| && Separate(ps)
    modifies ps[i], ps[i].completeMoves
    ensures Separate(ps)
    ensures forall k :: 0 <= k < |ps| ==> ps[k].Data() == old(ps[k].Data())
    ensures forall k :: 0 <= k < |ps| && k != i ==>
              ps[k].completeMoves == old(ps[k].completeMoves)
              && MovesData(ps[k].completeMoves) == old(MovesData(ps[k].completeMoves))
    ensures MovesData(ps[i].completeMoves)
            == Deliver(ps[i].movesNames, ps[i].active, old(MovesData(ps[i].completeMoves)), rec)
  {
    var member := ps[i];
    ghost var held := member.completeMoves;
    member.UpdateMoveDataWithSmogon(rec);
    forall a, b, m | 0 <= a < |ps| && 0 <= b < |ps| && a != b && m in ps[a].completeMoves
      ensures m !in ps[b].completeMoves
    {
      if a == i {
        if m !in held {
          assert fresh(m);
        }
      } else if b == i {
        assert m in old(ps[a].completeMoves);
      }
    }
    forall k | 0 <= k < |ps| && k != i
      ensures ps[k].completeMoves == old(ps[k].completeMoves)
      ensures MovesData(ps[k].completeMoves) == old(MovesData(ps[k].completeMoves))
    {
      var others := ps[k].completeMoves;
      forall j | 0 <= j < |others|
        ensures others[j].Data() == old(others[j].Data())
      {
        assert others[j] !in held;
      }
    }
  }

  // =====================================================================
  // Team
  // =====================================================================

  class Team {
    var player: string
    var pokemons: seq<Pokemon>
    const buffs: SideBuffs

    /** A roster never holds more than six members. */
    ghost predicate Valid()
      reads this
    {
      |pokemons| <= 6
    }

    constructor (player: string)
      ensures Valid()
      ensures this.player == player && pokemons == []
      ensures fresh(buffs) && buffs.Counters() == NoStages
    {
      this.player := player;
      pokemons := [];
      buffs := new SideBuffs();
    }

    method RaiseStat(stat: string, levels: string) returns (err: Option<Exception>)
      modifies buffs
      ensures match Boost(old(buffs.Counters()), stat, levels, 1)
              case Ok(s) => err.None? && buffs.Counters() == s
              case Err(e) => err == Some(e) && buffs.Counters() == old(buffs.Counters())
    {
      err := buffs.RaiseStat(stat, levels);
    }

    method LowerStat(stat: string, levels: string) returns (err: Option<Exception>)
      modifies buffs
      ensures match Boost(old(buffs.Counters()), stat, levels, -1)
              case Ok(s) => err.None? && buffs.Counters() == s
              case Err(e) => err == Some(e) && buffs.Counters() == old(buffs.Counters())
    {
      err := buffs.LowerStat(stat, levels);
    }

    method ResetBuffs()
      modifies buffs
      ensures buffs.Counters() == NoStages
    {
      buffs.Reset();
    }

    /** Append a member while the roster has at most five; otherwise ignore it. */
    method AddPokemon(pokemon: Pokemon)
      requires Valid()
      modifies this`pokemons
      ensures Valid()
      ensures pokemons == if |old(pokemons)| <= 5 then old(pokemons) + [pokemon] else old(pokemons)
    {
      if |pokemons| <= 5 {
        pokemons := pokemons + [pokemon];
      }
    }

    method SetAllPokemonsToInactive()
      modifies pokemons
      ensures forall p :: p in pokemons ==> p.Data() == Deactivated(old(p.Data()))
      ensures forall p :: p in pokemons ==> p.completeMoves == old(p.completeMoves)
    {
      for i := 0 to |pokemons|
        invariant forall p :: p in pokemons ==> p.completeMoves == old(p.completeMoves)
        invariant forall p :: p in pokemons ==>
                    p.Data() == if p in pokemons[..i] then Deactivated(old(p.Data())) else old(p.Data())
      {
        assert pokemons[..i + 1] == pokemons[..i] + [pokemons[i]];
        pokemons[i].MakeInactive();
      }
      assert pokemons[..|pokemons|] == pokemons;
    }

    method MakePokemonActive(pokemonName: string)
      modifies pokemons
      ensures forall p :: p in pokemons ==> p.Data() == ActivatedIfNamed(old(p.Data()), pokemonName)
      ensures forall p :: p in pokemons ==> p.completeMoves == old(p.completeMoves)
    {
      for i := 0 to |pokemons|
        invariant forall p :: p in pokemons ==> p.completeMoves == old(p.completeMoves)
        invariant forall p :: p in pokemons ==>
                    p.Data() == if p in pokemons[..i] then ActivatedIfNamed(old(p.Data()), pokemonName) else old(p.Data())
      {
        assert pokemons[..i + 1] == pokemons[..i] + [pokemons[i]];
        if pokemons[i].HasName(pokemonName) {
          pokemons[i].MakeActive();
        }
      }
      assert pokemons[..|pokemons|] == pokemons;
    }

    /** The first member whose name matches ignoring case, or null. */
    method GetPokemon(pokemonName: string) returns (r: Pokemon?)
      ensures r == null <==> forall k :: 0 <= k < |pokemons| ==> !pokemons[k].HasName(pokemonName)
      ensures r != null ==> exists k :: 0 <= k < |pokemons| && r == pokemons[k] && r.HasName(pokemonName)
                              && forall j :: 0 <= j < k ==> !pokemons[j].HasName(pokemonName)
    {
      for k := 0 to |pokemons|
        invariant forall j :: 0 <= j < k ==> !pokemons[j].HasName(pokemonName)
      {
        if pokemons[k].HasName(pokemonName) {
          return pokemons[k];
        }
      }
      return null;
    }

    /** The first active member, or null. */
    method GetActivePokemon() returns (r: Pokemon?)
      ensures r == null <==> forall k :: 0 <= k < |pokemons| ==> !pokemons[k].active
      ensures r != null ==> exists k :: 0 <= k < |pokemons| && r == pokemons[k] && r.active
                              && forall j :: 0 <= j < k ==> !pokemons[j].active
    {
      for k := 0 to |pokemons|
        invariant forall j :: 0 <= j < k ==> !pokemons[j].active
      {
        if pokemons[k].active {
          return pokemons[k];
        }
      }
      return null;
    }

    /** The names of the members one could switch to, in roster order; `get_name`
        renames each candidate as it goes. */
    method GetPossiblePokemonSwitch() returns (names: seq<string>)
      modifies pokemons
      ensures names == SwitchNames(old(Datas(pokemons)))
      ensures forall k :: 0 <= k < |pokemons| ==> pokemons[k].Data() == SwitchVisited(old(pokemons[k].Data()))
      ensures forall k :: 0 <= k < |pokemons| ==> pokemons[k].completeMoves == old(pokemons[k].completeMoves)
    {
      var ps := pokemons;
      names := [];
      ghost var before := Datas(ps);
      ghost var moves := MovesOf(ps);
      ghost var seen: set<Pokemon> := {};
      for i := 0 to |ps|
        invariant seen == Members(ps[..i])
        invariant SwitchVisitedSoFar(ps, seen, before) && MovesAre(ps, moves)
        invariant names == SwitchNames(before[..i])
      {
        SwitchNamesSnoc(before, i);
        MembersSnoc(ps, i);
        var picked := SwitchStep(ps, i, seen, before, moves);
        names := names + picked;
        seen := seen + {ps[i]};
      }
      assert before[..|ps|] == before;
      assert ps[..|ps|] == ps;
    }

    /** `check_smogon_data_update`: success when every member is synchronised,
        otherwise the first failing member's answer. */
    method CheckSmogonDataUpdate() returns (ok: bool, pending: seq<string>)
      ensures (ok, pending) == FirstFailure(Statuses(pokemons))
    {
      for i := 0 to |pokemons|
        invariant forall j :: 0 <= j < i ==> PokemonStatus(pokemons[j]).0
      {
        var memberOk, memberPending := pokemons[i].HasBeenUpdatedWithSmogon();
        if !memberOk {
          FirstFailureAt(Statuses(pokemons), i);
          return false, memberPending;
        }
      }
      FirstFailureAll(Statuses(pokemons));
      return true, [];
    }

    /** Deliver a move record to every member. */
    method UpdateMovesWithSmogon(rec: MoveRecord)
      requires Separate(pokemons)
      modifies pokemons, AllMoves(pokemons)
      ensures Separate(pokemons)
      ensures forall k :: 0 <= k < |pokemons| ==> pokemons[k].Data() == old(pokemons[k].Data())
      ensures forall k :: 0 <= k < |pokemons| ==>
                MovesData(pokemons[k].completeMoves)
                == Deliver(pokemons[k].movesNames, pokemons[k].active, old(MovesData(pokemons[k].completeMoves)), rec)
    {
      var ps := pokemons;
      ghost var datas := Datas(ps);
      ghost var moves := MovesOf(ps);
      ghost var before := MovesDatas(ps);
      ghost var after := seq(|ps|, k requires 0 <= k < |ps| =>
                                    Deliver(datas[k].movesNames, datas[k].active, before[k], rec));
      for i := 0 to |ps|
        invariant Separate(ps) && DatasAre(ps, datas)
        invariant DeliveredUpTo(ps, i, after, before, moves)
      {
        assert forall m :: m in moves[i] ==> m in old(AllMoves(pokemons));
        DeliverToMember(ps, i, rec, datas, after, before, moves);
      }
    }

    /** Deliver a species record to every member whose (renamed) name matches it
        ignoring case. */
    method UpdatePokemonsWithSmogon(rec: SpeciesRecord)
      modifies pokemons
      ensures forall p :: p in pokemons ==> p.Data() == SpeciesVisited(old(p.Data()), rec)
      ensures forall p :: p in pokemons ==> p.completeMoves == old(p.completeMoves)
    {
      for i := 0 to |pokemons|
        invariant forall p :: p in pokemons ==> p.completeMoves == old(p.completeMoves)
        invariant forall p :: p in pokemons ==>
                    p.Data() == if p in pokemons[..i] then SpeciesVisited(old(p.Data()), rec) else old(p.Data())
      {
        assert pokemons[..i + 1] == pokemons[..i] + [pokemons[i]];
        var pokemon := pokemons[i];
        ghost var before := pokemon.Data();
        var n := pokemon.GetName();
        if SameNameIgnoringCase(rec.name, n) {
          pokemon.UpdateSmogonData(rec);
        }
        SpeciesVisitIdempotent(before, rec);
      }
      assert pokemons[..|pokemons|] == pokemons;
    }
  }

  lemma SpeciesVisitIdempotent(d: PokemonData, rec: SpeciesRecord)
    ensures SpeciesVisited(SpeciesVisited(d, rec), rec) == SpeciesVisited(d, rec)
  {
  }

  lemma FirstFailureAt(sts: seq<(bool, seq<string>)>, i: nat)
    requires i < |sts| && !sts[i].0
    requires forall j :: 0 <= j < i ==> sts[j].0
    ensures FirstFailure(sts) == sts[i]
  {
    if i > 0 {
      FirstFailureAt(sts[1..], i - 1);
    }
  }

  lemma FirstFailureAll(sts: seq<(bool, seq<string>)>)
    requires forall j :: 0 <= j < |sts| ==> sts[j].0
    ensures FirstFailure(sts) == (true, [])
  {
  }
}
