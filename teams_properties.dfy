/** Properties of the team model: stat derivation, stat stages, the delivery of
    reference data, and the switch list. Two of them show the code of
    showdown/teams.py doing something other than what it evidently means to; for
    each, the as-written behaviour and a corrected definition are both given. */
module TeamsProperties {
  import opened Wrappers
  import opened PyStr
  import opened Teams

  // =====================================================================
  // Opponent stat derivation
  // =====================================================================

  /** A level-100 species with base HP 78 is given 314 HP (the code adds the
      level to the HP formula). */
  lemma DerivedHpExample()
    ensures DerivedHp(78, 100) == 314
  {
    DerivedClosedForm(78, 100);
  }

  /** What `set_stats_enemy_pokemon` stores converts back with `int()` to the
      derived values, so later comparisons see the numbers derived. */
  lemma StoredStatsParse(d: PokemonData)
    requires DeriveStats(d.base, d.level).Ok?
    ensures var s := DeriveStats(d.base, d.level).value;
            var t := WithDerivedStats(d).stats;
            && ParseInt(t.maxHp) == Some(s.hp)
            && ParseInt(t.attack) == Some(s.attack)
            && ParseInt(t.defense) == Some(s.defense)
            && ParseInt(t.specialAttack) == Some(s.specialAttack)
            && ParseInt(t.specialDefense) == Some(s.specialDefense)
            && ParseInt(t.speed) == Some(s.speed)
  {
    var s := DeriveStats(d.base, d.level).value;
    ParseShow(s.hp);
    ParseShow(s.attack);
    ParseShow(s.defense);
    ParseShow(s.specialAttack);
    ParseShow(s.specialDefense);
    ParseShow(s.speed);
  }

  /** The derived speed is the speed formula applied to the parsed base speed and level. */
  lemma DerivedSpeedIs(base: BaseStats, level: string, t: string, sp: int, lvl: int)
    requires DeriveStats(base, level).Ok?
    requires base.speed == Some(t) && ParseInt(t) == Some(sp) && ParseInt(level) == Some(lvl)
    ensures DeriveStats(base, level).value.speed == DerivedStat(sp, lvl)
  {
  }

  /** Two opponents at the same level: the one with the higher base speed ends
      up with the speed text that converts to the higher number. */
  lemma DerivedSpeedFollowsBaseSpeed(a: PokemonData, b: PokemonData, ta: string, tb: string, sa: nat, sb: nat, level: nat)
    requires DeriveStats(a.base, a.level).Ok? && DeriveStats(b.base, b.level).Ok?
    requires a.base.speed == Some(ta) && ParseInt(ta) == Some(sa)
    requires b.base.speed == Some(tb) && ParseInt(tb) == Some(sb)
    requires ParseInt(a.level) == Some(level) && ParseInt(b.level) == Some(level)
    requires sa >= sb
    ensures ParseInt(WithDerivedStats(a).stats.speed) == Some(DerivedStat(sa, level))
    ensures ParseInt(WithDerivedStats(b).stats.speed) == Some(DerivedStat(sb, level))
    ensures DerivedStat(sa, level) >= DerivedStat(sb, level)
  {
    StoredStatsParse(a);
    StoredStatsParse(b);
    DerivedSpeedIs(a.base, a.level, ta, sa, level);
    DerivedSpeedIs(b.base, b.level, tb, sb, level);
    DerivedStatMonotonic(sa, sb, level);
  }

  // =====================================================================
  // Stat stages
  // =====================================================================

  /** A known counter moves by the parsed number of levels and no other counter
      moves. */
  lemma BoostMovesOneCounter(s: StatStages, stat: string, levels: string, sign: int, v: int)
    requires IsStageName(stat) && ParseInt(levels) == Some(v)
    ensures Boost(s, stat, levels, sign).Ok?
    ensures var t := Boost(s, stat, levels, sign).value;
            && t.attack == s.attack + (if stat == "atk" then sign * v else 0)
            && t.defense == s.defense + (if stat == "def" then sign * v else 0)
            && t.specialAttack == s.specialAttack + (if stat == "spa" then sign * v else 0)
            && t.specialDefense == s.specialDefense + (if stat == "spd" then sign * v else 0)
            && t.speed == s.speed + (if stat == "spe" then sign * v else 0)
  {
  }

  /** An unknown stat name changes nothing and raises nothing, whatever `levels` holds. */
  lemma UnknownStatIgnored(s: StatStages, stat: string, levels: string, sign: int)
    requires !IsStageName(stat)
    ensures Boost(s, stat, levels, sign) == Ok(s)
  {
  }

  /** Raising then lowering a counter by the same levels restores it. */
  lemma RaiseThenLowerRestores(s: StatStages, stat: string, levels: string)
    requires Boost(s, stat, levels, 1).Ok?
    ensures Boost(Boost(s, stat, levels, 1).value, stat, levels, -1) == Ok(s)
  {
  }

  // =====================================================================
  // Delivery of move records, as written
  // =====================================================================

  predicate Distinct(names: seq<string>) {
    forall i, j :: 0 <= i < j < |names| ==> names[i] != names[j]
  }

  /** A record whose name is in no slot changes nothing. */
  lemma {:induction false} DeliverIgnoresOthers(names: seq<string>, active: bool, ms: seq<MoveData>, rec: MoveRecord)
    requires rec.name !in names
    ensures Deliver(names, active, ms, rec) == ms
    decreases |names|
  {
    if names != [] {
      DeliverIgnoresOthers(names[..|names| - 1], active, ms, rec);
    }
  }

  /** A record for a move the Pokémon holds updates that move in place. */
  lemma {:induction false} DeliverKnown(names: seq<string>, ms: seq<MoveData>, rec: MoveRecord, i: nat)
    requires Distinct(names) && rec.name in names
    requires FirstIndex(DataNames(ms), rec.name) == Some(i)
    ensures Deliver(names, true, ms, rec) == ms[i := Resolve(ms[i], rec)]
    decreases |names|
  {
    var init := names[..|names| - 1];
    if Last(names) == rec.name {
      assert rec.name !in init;
      DeliverIgnoresOthers(init, true, ms, rec);
    } else {
      assert rec.name in init;
      DeliverKnown(init, ms, rec, i);
    }
  }

  /** A record for a move the Pokémon lacks appends one move to an inactive
      Pokémon, and two to an active one. */
  lemma {:induction false} DeliverMissing(names: seq<string>, active: bool, ms: seq<MoveData>, rec: MoveRecord)
    requires Distinct(names) && rec.name in names && rec.name !in DataNames(ms)
    ensures Deliver(names, active, ms, rec)
            == if active then ms + [NewResolvedMove(rec.name, rec)] + [NewResolvedMove(rec.name, rec)]
               else ms + [NewResolvedMove(rec.name, rec)]
    decreases |names|
  {
    var init := names[..|names| - 1];
    if Last(names) == rec.name {
      assert rec.name !in init;
      DeliverIgnoresOthers(init, active, ms, rec);
    } else {
      assert rec.name in init;
      DeliverMissing(init, active, ms, rec);
    }
  }

  /** On an inactive Pokémon every delivery of a record for one of its slots
      appends one new resolved move, whether or not it already holds one. */
  lemma {:induction false} DeliverInactiveAppends(names: seq<string>, ms: seq<MoveData>, rec: MoveRecord)
    requires Distinct(names) && rec.name in names
    ensures Deliver(names, false, ms, rec) == ms + [NewResolvedMove(rec.name, rec)]
    decreases |names|
  {
    var init := names[..|names| - 1];
    if Last(names) == rec.name {
      assert rec.name !in init;
      DeliverIgnoresOthers(init, false, ms, rec);
    } else {
      assert rec.name in init;
      DeliverInactiveAppends(init, ms, rec);
    }
  }

  /** So delivering the same record twice to an inactive Pokémon is not the same
      as delivering it once: the list grows by one move each time. */
  lemma InactiveDeliveryNotIdempotent(names: seq<string>, ms: seq<MoveData>, rec: MoveRecord)
    requires Distinct(names) && rec.name in names
    ensures |Deliver(names, false, Deliver(names, false, ms, rec), rec)| == |ms| + 2
    ensures Deliver(names, false, Deliver(names, false, ms, rec), rec) != Deliver(names, false, ms, rec)
  {
    DeliverInactiveAppends(names, ms, rec);
    DeliverInactiveAppends(names, Deliver(names, false, ms, rec), rec);
  }

  /** The complete moves after the records `recs` have been delivered in turn. */
  function DeliverAll(names: seq<string>, active: bool, ms: seq<MoveData>, recs: seq<MoveRecord>): seq<MoveData>
    decreases |recs|
  {
    if recs == [] then ms
    else Deliver(names, active, DeliverAll(names, active, ms, recs[..|recs| - 1]), Last(recs))
  }

  /** One record per slot name, in slot order. */
  predicate RecordsFor(names: seq<string>, recs: seq<MoveRecord>) {
    |recs| == |names| && forall k :: 0 <= k < |recs| ==> recs[k].name == names[k]
  }

  lemma {:induction false} DeliverAllActive(names: seq<string>, recs: seq<MoveRecord>, k: nat)
    requires Distinct(names) && RecordsFor(names, recs) && k <= |names|
    ensures var ms := DeliverAll(names, true, [], recs[..k]);
            && |ms| == 2 * k
            && (forall x :: x in DataNames(ms) <==> x in names[..k])
            && (forall j :: 0 <= j < |ms| ==> ms[j].resolved)
    decreases k
  {
    if k > 0 {
      DeliverAllActive(names, recs, k - 1);
      assert recs[..k][..k - 1] == recs[..k - 1];
      var prev := DeliverAll(names, true, [], recs[..k - 1]);
      var rec := recs[k - 1];
      assert names[..k] == names[..k - 1] + [names[k - 1]];
      assert rec.name !in names[..k - 1];
      DeliverMissing(names, true, prev, rec);
      var ms := DeliverAll(names, true, [], recs[..k]);
      assert ms == prev + [NewResolvedMove(rec.name, rec)] + [NewResolvedMove(rec.name, rec)];
      forall x
        ensures x in DataNames(ms) <==> x in names[..k]
      {
        if x in DataNames(ms) {
          var j :| 0 <= j < |ms| && DataNames(ms)[j] == x;
          if j < |prev| {
            assert DataNames(prev)[j] == x;
          }
        }
        if x in DataNames(prev) {
          var j :| 0 <= j < |prev| && DataNames(prev)[j] == x;
          assert DataNames(ms)[j] == x;
        }
        if x == rec.name {
          assert DataNames(ms)[|prev|] == x;
        }
      }
    }
  }

  /** As written (teams.py:420-459): when every move record arrives for an
      active Pokémon that holds none of its moves yet, it ends up with two moves
      per slot, so it never counts as synchronised, and it asks for nothing more. */
  lemma ActivePokemonNeverSynchronises(names: seq<string>, recs: seq<MoveRecord>, name: string)
    requires Distinct(names) && |names| >= 1 && RecordsFor(names, recs)
    ensures var ms := DeliverAll(names, true, [], recs);
            && |ms| == 2 * |names|
            && SyncStatus(names, ms, true, name) == (false, [])
  {
    DeliverAllActive(names, recs, |names|);
    assert recs[..|names|] == recs;
    assert names[..|names|] == names;
    var ms := DeliverAll(names, true, [], recs);
    assert |ms| == 2 * |names|;
    assert |ms| != |names|;
  }

  // =====================================================================
  // Delivery of move records, as intended
  // =====================================================================

  /** The slot step with the missing-move case appending one move whether or not
      the Pokémon is active. */
  function IntendedDeliverStep(n: string, active: bool, ms: seq<MoveData>, rec: MoveRecord): seq<MoveData> {
    if rec.name != n then ms
    else if active then
      match FirstIndex(DataNames(ms), n)
      case Some(i) => ms[i := Resolve(ms[i], rec)]
      case None => ms + [NewResolvedMove(n, rec)]
    else ms + [NewResolvedMove(n, rec)]
  }

  function IntendedDeliver(names: seq<string>, active: bool, ms: seq<MoveData>, rec: MoveRecord): seq<MoveData>
    decreases |names|
  {
    if names == [] then ms
    else IntendedDeliverStep(Last(names), active, IntendedDeliver(names[..|names| - 1], active, ms, rec), rec)
  }

  /** The correction changes nothing for an inactive Pokémon. */
  lemma {:induction false} IntendedAgreesWhenInactive(names: seq<string>, ms: seq<MoveData>, rec: MoveRecord)
    ensures IntendedDeliver(names, false, ms, rec) == Deliver(names, false, ms, rec)
    decreases |names|
  {
    if names != [] {
      IntendedAgreesWhenInactive(names[..|names| - 1], ms, rec);
    }
  }

  lemma {:induction false} IntendedIgnoresOthers(names: seq<string>, active: bool, ms: seq<MoveData>, rec: MoveRecord)
    requires rec.name !in names
    ensures IntendedDeliver(names, active, ms, rec) == ms
    decreases |names|
  {
    if names != [] {
      IntendedIgnoresOthers(names[..|names| - 1], active, ms, rec);
    }
  }

  lemma {:induction false} IntendedMissing(names: seq<string>, active: bool, ms: seq<MoveData>, rec: MoveRecord)
    requires Distinct(names) && rec.name in names && rec.name !in DataNames(ms)
    ensures IntendedDeliver(names, active, ms, rec) == ms + [NewResolvedMove(rec.name, rec)]
    decreases |names|
  {
    var init := names[..|names| - 1];
    if Last(names) == rec.name {
      assert rec.name !in init;
      IntendedIgnoresOthers(init, active, ms, rec);
    } else {
      assert rec.name in init;
      IntendedMissing(init, active, ms, rec);
    }
  }

  function IntendedDeliverAll(names: seq<string>, active: bool, ms: seq<MoveData>, recs: seq<MoveRecord>): seq<MoveData>
    decreases |recs|
  {
    if recs == [] then ms
    else IntendedDeliver(names, active, IntendedDeliverAll(names, active, ms, recs[..|recs| - 1]), Last(recs))
  }

  lemma {:induction false} IntendedDeliverAllPrefix(names: seq<string>, active: bool, recs: seq<MoveRecord>, k: nat)
    requires Distinct(names) && RecordsFor(names, recs) && k <= |names|
    ensures var ms := IntendedDeliverAll(names, active, [], recs[..k]);
            && DataNames(ms) == names[..k]
            && (forall j :: 0 <= j < |ms| ==> ms[j].resolved)
    decreases k
  {
    if k > 0 {
      IntendedDeliverAllPrefix(names, active, recs, k - 1);
      assert recs[..k][..k - 1] == recs[..k - 1];
      var prev := IntendedDeliverAll(names, active, [], recs[..k - 1]);
      var rec := recs[k - 1];
      assert names[..k] == names[..k - 1] + [names[k - 1]];
      assert rec.name !in names[..k - 1];
      IntendedMissing(names, active, prev, rec);
    }
  }

  /** As intended: once every move record has arrived, the Pokémon holds exactly
      one resolved move per slot, in slot order, and counts as synchronised once
      its own record has arrived too. */
  lemma IntendedDeliveriesSynchronise(names: seq<string>, active: bool, recs: seq<MoveRecord>, name: string)
    requires Distinct(names) && RecordsFor(names, recs)
    ensures var ms := IntendedDeliverAll(names, active, [], recs);
            && DataNames(ms) == names
            && SyncStatus(names, ms, true, name) == (true, [])
  {
    IntendedDeliverAllPrefix(names, active, recs, |names|);
    assert recs[..|names|] == recs;
    assert names[..|names|] == names;
  }

  // =====================================================================
  // Active flag
  // =====================================================================

  /** The members after `set_all_pokemons_to_inactive` then `make_pokemon_active(n)`. */
  function Reactivated(ds: seq<PokemonData>, n: string): (r: seq<PokemonData>)
    ensures |r| == |ds|
    ensures forall k :: 0 <= k < |ds| ==> r[k] == ActivatedIfNamed(Deactivated(ds[k]), n)
  {
    seq(|ds|, k requires 0 <= k < |ds| => ActivatedIfNamed(Deactivated(ds[k]), n))
  }

  /** A switch-in on a team: `set_all_pokemons_to_inactive` followed by
      `make_pokemon_active(n)`. The members' new states are `Reactivated` of the
      old ones, and their moves are untouched. */
  method Reactivate(team: Team, n: string)
    modifies team.pokemons
    ensures Datas(team.pokemons) == Reactivated(old(Datas(team.pokemons)), n)
    ensures forall k :: 0 <= k < |team.pokemons| ==> team.pokemons[k].completeMoves == old(team.pokemons[k].completeMoves)
    ensures forall k :: 0 <= k < |team.pokemons| ==>
              (team.pokemons[k].active <==> SameNameIgnoringCase(old(team.pokemons[k].name), n))
    ensures (forall i, j :: 0 <= i < j < |team.pokemons| ==>
               !SameNameIgnoringCase(old(team.pokemons[i].name), old(team.pokemons[j].name))) ==>
            forall i, j :: 0 <= i < j < |team.pokemons| && team.pokemons[i].active ==> !team.pokemons[j].active
  {
    ghost var before := Datas(team.pokemons);
    ghost var names := seq(|before|, k requires 0 <= k < |before| => before[k].name);
    assert forall k :: 0 <= k < |names| ==> names[k] == team.pokemons[k].name;
    team.SetAllPokemonsToInactive();
    team.MakePokemonActive(n);
    ghost var after := Datas(team.pokemons);
    forall k | 0 <= k < |after|
      ensures after[k] == Reactivated(before, n)[k]
    {
      assert team.pokemons[k] in team.pokemons;
    }
    assert after == Reactivated(before, n);
    ActiveIffNamed(before, n);
    if forall i, j :: 0 <= i < j < |names| ==> !SameNameIgnoringCase(names[i], names[j]) {
      AtMostOneActive(before, n);
    }
  }

  /** Afterwards a member is active exactly when its name is `n` ignoring case,
      and nothing else about it has changed. */
  lemma ActiveIffNamed(ds: seq<PokemonData>, n: string)
    ensures forall k :: 0 <= k < |ds| ==>
              (Reactivated(ds, n)[k].active <==> SameNameIgnoringCase(ds[k].name, n))
    ensures forall k :: 0 <= k < |ds| ==> Reactivated(ds, n)[k].(active := ds[k].active) == ds[k]
  {
  }

  /** When no two members share a name ignoring case, at most one is active afterwards. */
  lemma AtMostOneActive(ds: seq<PokemonData>, n: string)
    requires forall i, j :: 0 <= i < j < |ds| ==> !SameNameIgnoringCase(ds[i].name, ds[j].name)
    ensures forall i, j :: 0 <= i < j < |ds| && Reactivated(ds, n)[i].active ==> !Reactivated(ds, n)[j].active
  {
  }

  // =====================================================================
  // Switch list
  // =====================================================================

  /** As written (teams.py:74): the HP test never excludes anyone, so exactly the
      inactive members are offered. */
  lemma {:induction false} SwitchNamesAreInactiveMembers(ds: seq<PokemonData>, x: string)
    ensures x in SwitchNames(ds) <==> exists k :: 0 <= k < |ds| && !ds[k].active && x == CanonicalName(ds[k].name)
    decreases |ds|
  {
    if ds != [] {
      var init := ds[..|ds| - 1];
      SwitchNamesAreInactiveMembers(init, x);
      if x in SwitchNames(ds) && x !in SwitchNames(init) {
        assert !Last(ds).active && x == CanonicalName(Last(ds).name);
      }
      if exists k :: 0 <= k < |ds| && !ds[k].active && x == CanonicalName(ds[k].name) {
        var k :| 0 <= k < |ds| && !ds[k].active && x == CanonicalName(ds[k].name);
        if k < |init| {
          assert init[k] == ds[k];
        }
      }
    }
  }

  /** As written: a fainted member on the bench is offered as a switch. */
  lemma FaintedMemberOffered(d: PokemonData)
    requires d.currentHp == "0" && !d.active
    ensures SwitchNames([d]) == [CanonicalName(d.name)]
  {
    assert [d][..0] == [];
  }

  /** The evidently intended test: the HP converted to a number is not 0. */
  predicate IntendedSwitchCandidate(d: PokemonData) {
    ParseInt(d.currentHp) != Some(0) && !d.active
  }

  /** The switch list with the intended test: exactly the names of the inactive
      members that have not fainted. */
  function IntendedSwitchNames(ds: seq<PokemonData>): (r: seq<string>)
    ensures forall x :: x in r <==>
              exists k :: 0 <= k < |ds| && IntendedSwitchCandidate(ds[k]) && x == CanonicalName(ds[k].name)
    decreases |ds|
  {
    if ds == [] then []
    else
      var init := ds[..|ds| - 1];
      var r := IntendedSwitchNames(init) + (if IntendedSwitchCandidate(Last(ds)) then [CanonicalName(Last(ds).name)] else []);
      assert forall k :: 0 <= k < |init| ==> init[k] == ds[k];
      r
  }

  /** With the intended test, a fainted member is never offered. */
  lemma FaintedMemberNotOffered(d: PokemonData)
    requires d.currentHp == "0"
    ensures IntendedSwitchNames([d]) == []
  {
    assert Show(0) == "0";
    ParseShow(0);
  }
}
