/** The turn-decision helpers of showdown/logic.py: the speed comparison, the
    type multiplier read from a type table, the damage estimate, the choice of
    the best move, and the threat an opponent poses.

    The damage estimate works on Python floats; here they are exact reals, and
    `int()` on a float is truncation toward zero (`Trunc`). */
module Logic {
  import opened Wrappers
  import opened PyStr
  import opened Teams

  const Special: string := "special"
  const Physical: string := "physical"
  const Status: string := "status"
  const ProbePower: string := "100"
  const ProbeDescription: string := "stabed attack"
  const ProbeSuffix: string := "phy"

  /** The damage roll `randint(100, 100)`: always 100. */
  const Roll: int := 100

  // =====================================================================
  // Speed
  // =====================================================================

  /** `determince_speed_tie`: whether the first Pokémon is at least as fast.
      `int()` raises on speed text that is not a number, the first Pokémon's
      first. */
  function SpeedTie(a: PokemonData, b: PokemonData): (r: Result<bool, Exception>)
    ensures r.Ok? <==> ParseInt(a.stats.speed).Some? && ParseInt(b.stats.speed).Some?
    ensures r.Err? ==> r.error == ValueError
    ensures r.Ok? ==> (r.value <==> ParseInt(a.stats.speed).value >= ParseInt(b.stats.speed).value)
  {
    var sa :- IntOfText(a.stats.speed);
    var sb :- IntOfText(b.stats.speed);
    Ok(sa >= sb)
  }

  /** Every Pokémon with a numeric speed ties with itself. */
  lemma SpeedTieReflexive(a: PokemonData)
    requires ParseInt(a.stats.speed).Some?
    ensures SpeedTie(a, a) == Ok(true)
  {
  }

  /** Of two Pokémon with numeric speeds, at least one is at least as fast as the other. */
  lemma SpeedTieTotal(a: PokemonData, b: PokemonData)
    requires ParseInt(a.stats.speed).Some? && ParseInt(b.stats.speed).Some?
    ensures SpeedTie(a, b) == Ok(true) || SpeedTie(b, a) == Ok(true)
  {
  }

  // =====================================================================
  // Type multiplier
  // =====================================================================

  /** The type table: rows of cells; row 0 holds the defending types, column 0
      the attacking types. */
  type Table = seq<seq<string>>

  /** The row the scan of the first `n` rows settles on: the last row whose first
      cell is the move type, else 0. An empty row raises IndexError. */
  function RowScan(table: Table, moveType: Option<string>, n: nat): (r: Result<nat, Exception>)
    requires n <= |table|
    ensures r.Ok? <==> forall i :: 0 <= i < n ==> |table[i]| > 0
    ensures r.Err? ==> r.error == IndexError
    ensures r.Ok? ==> r.value == 0 || r.value < n
    ensures r.Ok? && r.value > 0 ==> moveType == Some(table[r.value][0])
    ensures r.Ok? ==> forall j :: r.value < j < n ==> moveType != Some(table[j][0])
  {
    if n == 0 then Ok(0)
    else
      var prev :- RowScan(table, moveType, n - 1);
      if |table[n - 1]| == 0 then Err(IndexError)
      else Ok(if moveType == Some(table[n - 1][0]) then n - 1 else prev)
  }

  /** The column the scan of the first `n` cells of row 0 settles on: the last
      one equal to the defending type, else 0. Running past the end of row 0
      raises IndexError. */
  function ColScan(table: Table, t: string, n: nat): (r: Result<nat, Exception>)
    requires n <= |table|
    ensures r.Ok? <==> n == 0 || n <= |table[0]|
    ensures r.Err? ==> r.error == IndexError
    ensures r.Ok? ==> r.value == 0 || r.value < n
    ensures r.Ok? && r.value > 0 ==> t == table[0][r.value]
    ensures r.Ok? ==> forall j :: r.value < j < n ==> t != table[0][j]
  {
    if n == 0 then Ok(0)
    else
      var prev :- ColScan(table, t, n - 1);
      if n - 1 >= |table[0]| then Err(IndexError)
      else Ok(if t == table[0][n - 1] then n - 1 else prev)
  }

  /** `float(table[row][col])`. */
  function Cell(table: Table, row: nat, col: nat): Result<real, Exception> {
    if row < |table| && col < |table[row]| then
      match ParseFloat(table[row][col])
      case None => Err(ValueError)
      case Some(v) => Ok(v)
    else Err(IndexError)
  }

  /** The cell for one defending type, in the move type's row. */
  function Factor(table: Table, row: nat, t: string): Result<real, Exception> {
    var col :- ColScan(table, t, |table|);
    Cell(table, row, col)
  }

  function Factors(table: Table, row: nat, types: seq<string>): (fs: seq<Result<real, Exception>>)
    ensures |fs| == |types|
    ensures forall k :: 0 <= k < |types| ==> fs[k] == Factor(table, row, types[k])
  {
    seq(|types|, k requires 0 <= k < |types| => Factor(table, row, types[k]))
  }

  /** Python's product of two floats. */
  function Times(a: real, b: real): real {
    a * b
  }

  /** The product of the factors, in order; the first factor that raises ends it. */
  function Product(fs: seq<Result<real, Exception>>): (r: Result<real, Exception>)
    ensures r.Ok? <==> forall k :: 0 <= k < |fs| ==> fs[k].Ok?
    decreases |fs|
  {
    if fs == [] then Ok(1.0)
    else
      var init := fs[..|fs| - 1];
      assert forall j :: 0 <= j < |init| ==> init[j] == fs[j];
      var acc :- Product(init);
      var factor :- Last(fs);
      Ok(Times(acc, factor))
  }

  /** `type_multipplicator` with the table given: the product, over the
      defender's types, of the cell in the move type's row and the defending
      type's column. */
  function Multiplier(table: Table, moveType: Option<string>, types: seq<string>): Result<real, Exception> {
    var row :- RowScan(table, moveType, |table|);
    Product(Factors(table, row, types))
  }

  /** Against a Pokémon without types the multiplier is 1. */
  lemma MultiplierNoTypes(table: Table, moveType: Option<string>)
    requires forall i :: 0 <= i < |table| ==> |table[i]| > 0
    ensures Multiplier(table, moveType, []) == Ok(1.0)
  {
    assert Factors(table, RowScan(table, moveType, |table|).value, []) == [];
  }

  /** Against a Pokémon with one more type, the multiplier is multiplied by that
      type's cell. */
  lemma MultiplierAppend(table: Table, moveType: Option<string>, types: seq<string>, t: string,
                         row: nat, acc: real, factor: real)
    requires RowScan(table, moveType, |table|) == Ok(row)
    requires Multiplier(table, moveType, types) == Ok(acc)
    requires Factor(table, row, t) == Ok(factor)
    ensures Multiplier(table, moveType, types + [t]) == Ok(Times(acc, factor))
  {
    var fs := Factors(table, row, types + [t]);
    assert fs[..|types|] == Factors(table, row, types);
  }

  lemma ProductAppend(fs: seq<Result<real, Exception>>, f: Result<real, Exception>, acc: real, x: real)
    requires Product(fs) == Ok(acc) && f == Ok(x)
    ensures Product(fs + [f]) == Ok(Times(acc, x))
  {
    assert (fs + [f])[..|fs|] == fs;
  }

  /** Once the product has raised, it raises the same way whatever follows. */
  lemma {:induction false} ProductErrorSticks(fs: seq<Result<real, Exception>>, k: nat)
    requires k <= |fs| && Product(fs[..k]).Err?
    ensures Product(fs) == Product(fs[..k])
    decreases |fs|
  {
    if k < |fs| {
      assert fs[..|fs| - 1][..k] == fs[..k];
      ProductErrorSticks(fs[..|fs| - 1], k);
    } else {
      assert fs[..k] == fs;
    }
  }

  /** The loop at logic.py:37-39 over the rows of the table. */
  method FindRow(table: Table, moveType: Option<string>) returns (r: Result<nat, Exception>)
    ensures r == RowScan(table, moveType, |table|)
  {
    var row := 0;
    for i := 0 to |table|
      invariant RowScan(table, moveType, i) == Ok(row)
    {
      if |table[i]| == 0 {
        return Err(IndexError);
      }
      if moveType == Some(table[i][0]) {
        row := i;
      }
    }
    r := Ok(row);
  }

  /** The loop at logic.py:43-45 over the cells of row 0. */
  method FindColumn(table: Table, t: string) returns (r: Result<nat, Exception>)
    ensures r == ColScan(table, t, |table|)
  {
    var col := 0;
    for j := 0 to |table|
      invariant ColScan(table, t, j) == Ok(col)
    {
      if j >= |table[0]| {
        return Err(IndexError);
      }
      if t == table[0][j] {
        col := j;
      }
    }
    r := Ok(col);
  }

  /** One pass of the loop at logic.py:41-46: look up the column of `types[k]`
      and multiply the running product by its cell. */
  method MultiplyStep(table: Table, row: nat, types: seq<string>, k: nat, cm: real) returns (r: Result<real, Exception>)
    requires k < |types|
    requires Product(Factors(table, row, types)[..k]) == Ok(cm)
    ensures r.Ok? ==> Product(Factors(table, row, types)[..k + 1]) == r
    ensures r.Err? ==> Product(Factors(table, row, types)) == r
  {
    ghost var fs := Factors(table, row, types);
    assert fs[..k + 1][..k] == fs[..k];
    var col := FindColumn(table, types[k]);
    if col.Err? {
      ProductErrorSticks(fs, k + 1);
      return Err(col.error);
    }
    var factor := Cell(table, row, col.value);
    if factor.Err? {
      ProductErrorSticks(fs, k + 1);
      return Err(factor.error);
    }
    assert factor == fs[k];
    ProductAppend(fs[..k], fs[k], cm, factor.value);
    assert fs[..k] + [fs[k]] == fs[..k + 1];
    r := Ok(Times(cm, factor.value));
  }

  /** `type_multipplicator(attack, pokemon)`. */
  method TypeMultiplicator(attack: Move, pokemon: Pokemon, table: Table) returns (r: Result<real, Exception>)
    ensures r == Multiplier(table, attack.moveType, pokemon.types)
  {
    var types := pokemon.types;
    var row :- FindRow(table, attack.moveType);
    ghost var fs := Factors(table, row, types);
    var cm := 1.0;
    for k := 0 to |types|
      invariant Product(fs[..k]) == Ok(cm)
    {
      var step := MultiplyStep(table, row, types, k, cm);
      if step.Err? {
        return step;
      }
      cm := step.value;
    }
    assert fs[..|types|] == fs;
    r := Ok(cm);
  }

  // =====================================================================
  // Damage estimate
  // =====================================================================

  /** The same-type bonus: 1.5 when the move's type is one of the attacker's types. */
  function Stab(attackerTypes: seq<string>, moveType: Option<string>): real {
    if moveType.Some? && moveType.value in attackerTypes then 1.5 else 1.0
  }

  /** The attacking and defending stat the move's category selects, as numbers;
      (0, 1) for any other category. */
  function Offence(attacker: PokemonData, defender: PokemonData, category: Option<string>): Result<(int, int), Exception> {
    if category == Some(Special) then
      var a :- IntOfText(attacker.stats.specialAttack);
      var d :- IntOfText(defender.stats.specialDefense);
      Ok((a, d))
    else if category == Some(Physical) then
      var a :- IntOfText(attacker.stats.attack);
      var d :- IntOfText(defender.stats.defense);
      Ok((a, d))
    else Ok((0, 1))
  }

  /** The chance modifier: the roll over 100, the same-type bonus and the type
      multiplier. */
  function Modifier(stab: real, multiplier: real): real {
    Roll as real / 100.0 * stab * multiplier
  }

  /** `int(int(((lvl*0.4+2)*Att*Pui)/(Def*50)+2)*CM)`; a zero defence raises. */
  function Formula(level: int, offence: (int, int), power: int, cm: real): Result<int, Exception> {
    if offence.1 * 50 == 0 then Err(ZeroDivisionError)
    else
      var base := ((level as real * 0.4 + 2.0) * offence.0 as real * power as real) / (offence.1 * 50) as real;
      Ok(Trunc(Trunc(base + 2.0) as real * cm))
  }

  /** The defender's current HP in points: its maximum times its percentage. */
  function HpPoints(current: int, maxHp: int): real {
    maxHp as real * (current as real / 100.0)
  }

  /** The damage as a whole percentage of the HP left; no HP left raises. */
  function Percentage(damage: int, hp: real): Result<int, Exception> {
    if hp == 0.0 then Err(ZeroDivisionError) else Ok(Trunc(damage as real / hp * 100.0))
  }

  lemma HpPointsNonZero(current: int, maxHp: int)
    ensures HpPoints(current, maxHp) != 0.0 <==> current != 0 && maxHp != 0
  {
    if current != 0 && maxHp != 0 {
      assert current as real / 100.0 != 0.0;
    }
  }

  /** The raw damage of a move that is not a status move. */
  function Hit(level: int, offence: (int, int), stab: real, move: MoveData, defender: PokemonData, table: Table): Result<int, Exception> {
    var power :- IntOf(move.power);
    var multiplier :- Multiplier(table, move.moveType, defender.types);
    Formula(level, offence, power, Modifier(stab, multiplier))
  }

  /** `damage_calcul(attacker, defender, move)`: the damage as a whole percentage
      of the defender's current HP, whose text is itself a percentage of its
      maximum HP. */
  function Damage(attacker: PokemonData, defender: PokemonData, move: MoveData, table: Table): Result<int, Exception> {
    var current :- IntOfText(defender.currentHp);
    var maxHp :- IntOfText(defender.stats.maxHp);
    var offence :- Offence(attacker, defender, move.category);
    var stab := Stab(attacker.types, move.moveType);
    var level :- IntOfText(attacker.level);
    var damage :- if move.category == Some(Status) then Ok(0) else Hit(level, offence, stab, move, defender, table);
    Percentage(damage, HpPoints(current, maxHp))
  }

  /** The roll is always 100, so the modifier is the same-type bonus times the
      type multiplier. */
  lemma RollIsDeterministic(stab: real, multiplier: real)
    ensures Modifier(stab, multiplier) == stab * multiplier
  {
  }

  /** The same-type bonus is 1.5 exactly when the move's type is one of the
      attacker's types, and 1 otherwise. */
  lemma StabBonus(attackerTypes: seq<string>, moveType: Option<string>)
    ensures Stab(attackerTypes, moveType) == 1.5 <==> moveType.Some? && moveType.value in attackerTypes
    ensures Stab(attackerTypes, moveType) == 1.0 <==> !(moveType.Some? && moveType.value in attackerTypes)
  {
  }

  /** A status move deals no damage, provided the defender has HP left. */
  lemma StatusMoveDealsNothing(attacker: PokemonData, defender: PokemonData, move: MoveData, table: Table,
                               current: int, maxHp: int)
    requires move.category == Some(Status)
    requires ParseInt(defender.currentHp) == Some(current) && ParseInt(defender.stats.maxHp) == Some(maxHp)
    requires current != 0 && maxHp != 0
    requires ParseInt(attacker.level).Some?
    ensures Damage(attacker, defender, move, table) == Ok(0)
  {
    HpPointsNonZero(current, maxHp);
  }

  /** Every estimate is against a defender whose current and maximum HP are
      non-zero numbers: otherwise the estimate raises. */
  lemma DamageNeedsHp(attacker: PokemonData, defender: PokemonData, move: MoveData, table: Table)
    requires Damage(attacker, defender, move, table).Ok?
    ensures ParseInt(defender.currentHp).Some? && ParseInt(defender.currentHp).value != 0
    ensures ParseInt(defender.stats.maxHp).Some? && ParseInt(defender.stats.maxHp).value != 0
  {
    HpPointsNonZero(ParseInt(defender.currentHp).value, ParseInt(defender.stats.maxHp).value);
  }

  /** `damage_calcul(pokemon1, pokemon2, attack)`. */
  method DamageCalcul(pokemon1: Pokemon, pokemon2: Pokemon, attack: Move, table: Table) returns (r: Result<int, Exception>)
    ensures r == Damage(pokemon1.Data(), pokemon2.Data(), attack.Data(), table)
  {
    var current :- IntOfText(pokemon2.currentHp);
    var maxHp :- IntOfText(pokemon2.stats.maxHp);
    var hp := HpPoints(current, maxHp);
    var offence :- Offence(pokemon1.Data(), pokemon2.Data(), attack.category);
    var stab := 1.0;
    for k := 0 to |pokemon1.types|
      invariant stab == Stab(pokemon1.types[..k], attack.moveType)
    {
      assert pokemon1.types[..k + 1] == pokemon1.types[..k] + [pokemon1.types[k]];
      if Some(pokemon1.types[k]) == attack.moveType {
        stab := 1.5;
      }
    }
    assert pokemon1.types[..|pokemon1.types|] == pokemon1.types;
    var level :- IntOfText(pokemon1.level);
    var damage := 0;
    if attack.category != Some(Status) {
      var power :- IntOf(attack.power);
      var multiplier :- TypeMultiplicator(attack, pokemon2, table);
      damage :- Formula(level, offence, power, Modifier(stab, multiplier));
    }
    r := Percentage(damage, hp);
  }

  // =====================================================================
  // Best move
  // =====================================================================

  /** A candidate move: its name and its damage estimate. */
  type Candidate = (string, Result<int, Exception>)

  /** The scan of the candidates in order, keeping the first strictly greatest
      positive damage; the first estimate that raises ends the scan. */
  function Best(cs: seq<Candidate>): (r: Result<(Option<string>, int), Exception>)
    ensures r.Ok? <==> forall k :: 0 <= k < |cs| ==> cs[k].1.Ok?
    ensures r.Err? ==> exists k :: 0 <= k < |cs| && cs[k].1 == Err(r.error) && forall j :: 0 <= j < k ==> cs[j].1.Ok?
    ensures r.Ok? ==> r.value.1 >= 0 && forall k :: 0 <= k < |cs| ==> cs[k].1.value <= r.value.1
    ensures r.Ok? ==> (r.value.0.None? <==> r.value.1 == 0)
    ensures r.Ok? && r.value.0.Some? ==>
              exists k :: 0 <= k < |cs| && r.value.0 == Some(cs[k].0) && cs[k].1.value == r.value.1
                          && forall j :: 0 <= j < k ==> cs[j].1.value < r.value.1
    decreases |cs|
  {
    if cs == [] then Ok((None, 0))
    else
      var init := cs[..|cs| - 1];
      assert forall j :: 0 <= j < |init| ==> init[j] == cs[j];
      var prev :- Best(init);
      Consider(prev, Last(cs))
  }

  /** One step of the scan: a candidate replaces the best so far only when its
      damage is strictly greater. */
  function Consider(best: (Option<string>, int), c: Candidate): Result<(Option<string>, int), Exception> {
    var damage :- c.1;
    if damage > best.1 then Ok((Some(c.0), damage)) else Ok(best)
  }

  /** One slot of `select_move`: the move's estimate against the best so far. */
  method ConsiderSlot(pokemon1: Pokemon, pokemon2: Pokemon, move: Move, table: Table, best: (Option<string>, int))
    returns (r: Result<(Option<string>, int), Exception>)
    ensures r == Consider(best, (move.name, Damage(pokemon1.Data(), pokemon2.Data(), move.Data(), table)))
  {
    var damage :- DamageCalcul(pokemon1, pokemon2, move, table);
    if damage > best.1 {
      r := Ok((Some(move.name), damage));
    } else {
      r := Ok(best);
    }
  }

  /** The candidates for a list of moves. */
  function Candidates(attacker: PokemonData, defender: PokemonData, ms: seq<MoveData>, table: Table): (cs: seq<Candidate>)
    ensures |cs| == |ms|
    ensures forall k :: 0 <= k < |ms| ==> cs[k] == (ms[k].name, Damage(attacker, defender, ms[k], table))
  {
    seq(|ms|, k requires 0 <= k < |ms| => (ms[k].name, Damage(attacker, defender, ms[k], table)))
  }

  /** `select_move` on the castable moves: more than four raise IndexError before
      any estimate is made. */
  function Selection(attacker: PokemonData, defender: PokemonData, ms: seq<MoveData>, table: Table): Result<(Option<string>, int), Exception> {
    if |ms| > 4 then Err(IndexError) else Best(Candidates(attacker, defender, ms, table))
  }

  /** Once the scan has raised, it raises the same way whatever follows. */
  lemma {:induction false} BestErrorSticks(cs: seq<Candidate>, k: nat)
    requires k <= |cs| && Best(cs[..k]).Err?
    ensures Best(cs) == Best(cs[..k])
    decreases |cs|
  {
    if k < |cs| {
      assert cs[..|cs| - 1][..k] == cs[..k];
      BestErrorSticks(cs[..|cs| - 1], k);
    } else {
      assert cs[..k] == cs;
    }
  }

  function Min(a: int, b: int): int {
    if a <= b then a else b
  }

  /** `select_move(pokemon1, pokemon2)`; the table is given. Asking for the
      attacker's name renames "EiscueNoice". */
  method SelectMove(pokemon1: Pokemon, pokemon2: Pokemon, table: Table) returns (r: Result<(Option<string>, int), Exception>)
    modifies pokemon1`name
    ensures pokemon1.name == CanonicalName(old(pokemon1.name))
    ensures r == Selection(pokemon1.Data(), pokemon2.Data(), MovesData(Castable(pokemon1.completeMoves)), table)
  {
    var _ := pokemon1.GetName();
    var moves := pokemon1.GetPossibleMoves();
    r := ChooseAmong(pokemon1, pokemon2, moves, table);
  }

  /** The four-slot moveset filled with the castable moves in order; a fifth
      move has no slot and raises IndexError. */
  method FillMoveset(moves: seq<Move>) returns (r: Result<array<Move?>, Exception>)
    ensures r.Err? <==> |moves| > 4
    ensures r.Err? ==> r.error == IndexError
    ensures r.Ok? ==> fresh(r.value) && r.value.Length == 4
    ensures r.Ok? ==> forall j :: 0 <= j < 4 ==> r.value[j] == if j < |moves| then moves[j] else null
  {
    var moveset := new Move?[4](_ => null);
    for i := 0 to |moves|
      invariant i <= 4
      invariant forall j :: 0 <= j < i ==> moveset[j] == moves[j]
      invariant forall j :: i <= j < 4 ==> moveset[j] == null
    {
      if i >= 4 {
        return Err(IndexError);
      }
      moveset[i] := moves[i];
    }
    r := Ok(moveset);
  }

  /** The body of `select_move` once the castable moves are known: they fill a
      four-slot moveset, whose slots are then scanned in order. */
  method ChooseAmong(pokemon1: Pokemon, pokemon2: Pokemon, moves: seq<Move>, table: Table)
    returns (r: Result<(Option<string>, int), Exception>)
    ensures r == Selection(pokemon1.Data(), pokemon2.Data(), MovesData(moves), table)
  {
    var moveset :- FillMoveset(moves);
    r := ScanMoveset(pokemon1, pokemon2, moveset, moves, table);
  }

  /** The scan of the four slots of a moveset holding `moves`: empty slots are
      skipped, the first estimate that raises ends the scan. */
  method ScanMoveset(pokemon1: Pokemon, pokemon2: Pokemon, moveset: array<Move?>, ghost moves: seq<Move>, table: Table)
    returns (r: Result<(Option<string>, int), Exception>)
    requires moveset.Length == 4 && |moves| <= 4
    requires forall j :: 0 <= j < 4 ==> moveset[j] == if j < |moves| then moves[j] else null
    ensures r == Best(Candidates(pokemon1.Data(), pokemon2.Data(), MovesData(moves), table))
  {
    ghost var cs := Candidates(pokemon1.Data(), pokemon2.Data(), MovesData(moves), table);
    var selected: Option<string> := None;
    var maxDamage := 0;
    for slot := 0 to 4
      modifies {}
      invariant Best(cs[..Min(slot, |cs|)]) == Ok((selected, maxDamage))
    {
      var step := ScanSlot(pokemon1, pokemon2, moveset[slot], table, cs, slot, (selected, maxDamage));
      if step.Err? {
        return step;
      }
      selected, maxDamage := step.value.0, step.value.1;
    }
    assert Min(4, |cs|) == |cs|;
    assert cs[..|cs|] == cs;
    r := Ok((selected, maxDamage));
  }

  /** One slot of the scan: an empty slot keeps the best so far. */
  method ScanSlot(pokemon1: Pokemon, pokemon2: Pokemon, move: Move?, table: Table, ghost cs: seq<Candidate>,
                  slot: nat, best: (Option<string>, int))
    returns (r: Result<(Option<string>, int), Exception>)
    requires slot < 4 && |cs| <= 4 && (move == null <==> slot >= |cs|)
    requires move != null ==> cs[slot] == (move.name, Damage(pokemon1.Data(), pokemon2.Data(), move.Data(), table))
    requires Best(cs[..Min(slot, |cs|)]) == Ok(best)
    ensures r.Ok? ==> Best(cs[..Min(slot + 1, |cs|)]) == r
    ensures r.Err? ==> Best(cs) == r
  {
    if move == null {
      return Ok(best);
    }
    assert cs[..slot + 1][..slot] == cs[..slot];
    r := ConsiderSlot(pokemon1, pokemon2, move, table, best);
    if r.Err? {
      BestErrorSticks(cs, slot + 1);
    }
  }

  // =====================================================================
  // Opponent threat
  // =====================================================================

  /** The 100-power probe move of type `t` in a category, as the threat scan
      builds it (both probes are named type + "phy"). */
  function Probe(t: string, category: string): MoveData {
    MoveData(t + ProbeSuffix, false, 10, Some(t), Some(category), Some(ProbePower), Some(ProbePower),
             Some(ProbeDescription), true)
  }

  /** The estimates of the physical and the special probe of one type. */
  type ProbePair = (Result<int, Exception>, Result<int, Exception>)

  function Probes(attacker: PokemonData, defender: PokemonData, ts: seq<string>, table: Table): (ps: seq<ProbePair>)
    ensures |ps| == |ts|
    ensures forall k :: 0 <= k < |ts| ==>
              ps[k] == (Damage(attacker, defender, Probe(ts[k], Physical), table),
                        Damage(attacker, defender, Probe(ts[k], Special), table))
  {
    seq(|ts|, k requires 0 <= k < |ts| =>
      (Damage(attacker, defender, Probe(ts[k], Physical), table), Damage(attacker, defender, Probe(ts[k], Special), table)))
  }

  /** The scan over the probes of each type: the largest estimate, at least 0;
      the first estimate that raises ends the scan, the physical probe's before
      the special one's. */
  function MaxThreat(ps: seq<ProbePair>): (r: Result<int, Exception>)
    ensures r.Ok? <==> forall k :: 0 <= k < |ps| ==> ps[k].0.Ok? && ps[k].1.Ok?
    ensures r.Ok? ==> r.value >= 0
    ensures r.Ok? ==> forall k :: 0 <= k < |ps| ==> ps[k].0.value <= r.value && ps[k].1.value <= r.value
    ensures r.Ok? && r.value != 0 ==> exists k :: 0 <= k < |ps| && (ps[k].0 == Ok(r.value) || ps[k].1 == Ok(r.value))
    decreases |ps|
  {
    if ps == [] then Ok(0)
    else
      var init := ps[..|ps| - 1];
      assert forall j :: 0 <= j < |init| ==> init[j] == ps[j];
      var acc :- MaxThreat(init);
      var physical :- Last(ps).0;
      var special :- Last(ps).1;
      var m := if acc < physical then physical else acc;
      Ok(if m < special then special else m)
  }

  /** Once the threat scan has raised, it raises the same way whatever follows. */
  lemma {:induction false} MaxThreatErrorSticks(ps: seq<ProbePair>, k: nat)
    requires k <= |ps| && MaxThreat(ps[..k]).Err?
    ensures MaxThreat(ps) == MaxThreat(ps[..k])
    decreases |ps|
  {
    if k < |ps| {
      assert ps[..|ps| - 1][..k] == ps[..k];
      MaxThreatErrorSticks(ps[..|ps| - 1], k);
    } else {
      assert ps[..k] == ps;
    }
  }

  /** How hard `attacker` can hit `defender` with a 100-power move of one of its
      own types. */
  function Threat(defender: PokemonData, attacker: PokemonData, table: Table): Result<int, Exception> {
    MaxThreat(Probes(attacker, defender, attacker.types, table))
  }

  /** One type of the threat scan: the physical and the special probe of type
      `t`, each a fresh Move filled in as Smogon data would be. */
  method ProbeType(pokemon1: Pokemon, pokemon2: Pokemon, t: string, table: Table)
    returns (phyDamage: Result<int, Exception>, speDamage: Result<int, Exception>)
    ensures phyDamage == Damage(pokemon2.Data(), pokemon1.Data(), Probe(t, Physical), table)
    ensures speDamage == Damage(pokemon2.Data(), pokemon1.Data(), Probe(t, Special), table)
  {
    var attackPhy := new Move(t + ProbeSuffix, None, None, false, 10, None);
    attackPhy.UpdateSmogonData(Some(t), Some(Physical), Some(ProbePower), Some(ProbePower), Some(ProbeDescription));
    var attackSpe := new Move(t + ProbeSuffix, None, None, false, 10, None);
    attackSpe.UpdateSmogonData(Some(t), Some(Special), Some(ProbePower), Some(ProbePower), Some(ProbeDescription));
    phyDamage := DamageCalcul(pokemon2, pokemon1, attackPhy, table);
    speDamage := DamageCalcul(pokemon2, pokemon1, attackSpe, table);
  }

  /** An attacker without types poses no threat. */
  lemma ThreatWithoutTypes(defender: PokemonData, attacker: PokemonData, table: Table)
    requires attacker.types == []
    ensures Threat(defender, attacker, table) == Ok(0)
  {
  }

  /** `assert_opponent_pokemon_threat(pokemon1, pokemon2)`: how hard pokemon2
      can hit pokemon1. */
  method AssertOpponentPokemonThreat(pokemon1: Pokemon, pokemon2: Pokemon, table: Table) returns (r: Result<int, Exception>)
    ensures r == Threat(pokemon1.Data(), pokemon2.Data(), table)
  {
    var ts := pokemon2.types;
    ghost var ps := Probes(pokemon2.Data(), pokemon1.Data(), ts, table);
    var maxDamage := 0;
    for k := 0 to |ts|
      invariant MaxThreat(ps[..k]) == Ok(maxDamage)
    {
      var step := ThreatStep(pokemon1, pokemon2, ts[k], table, ps, k, maxDamage);
      if step.Err? {
        return step;
      }
      maxDamage := step.value;
    }
    assert ps[..|ps|] == ps;
    r := Ok(maxDamage);
  }

  /** One type of the threat scan: the larger of the running maximum and the
      two probes' estimates. */
  method ThreatStep(pokemon1: Pokemon, pokemon2: Pokemon, t: string, table: Table, ghost ps: seq<ProbePair>,
                    k: nat, maxDamage: int)
    returns (r: Result<int, Exception>)
    requires k < |ps| && MaxThreat(ps[..k]) == Ok(maxDamage)
    requires ps[k] == (Damage(pokemon2.Data(), pokemon1.Data(), Probe(t, Physical), table),
                       Damage(pokemon2.Data(), pokemon1.Data(), Probe(t, Special), table))
    ensures r.Ok? ==> MaxThreat(ps[..k + 1]) == r
    ensures r.Err? ==> MaxThreat(ps) == r
  {
    assert ps[..k + 1][..k] == ps[..k];
    var phyDamage, speDamage := ProbeType(pokemon1, pokemon2, t, table);
    if phyDamage.Err? || speDamage.Err? {
      MaxThreatErrorSticks(ps, k + 1);
      return if phyDamage.Err? then Err(phyDamage.error) else Err(speDamage.error);
    }
    var m := maxDamage;
    if m < phyDamage.value {
      m := phyDamage.value;
    }
    if m < speDamage.value {
      m := speDamage.value;
    }
    r := Ok(m);
  }
}
