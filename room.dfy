/** Battle bookkeeping of showdown/room.py: the fields read from each roster
    entry of a team request, the construction of the player's own team from
    them, the turn counter, and the branches of `Battle.update` that record the
    rating, the rules, the players and the end of the battle.

    The entries are the texts the team request is cut into (one per Pokémon,
    as the server sends them); cutting the request itself is not modelled. */
module Room {
  import opened Wrappers
  import opened PyStr
  import opened Teams

  /** The two characters `\"`: an escaped quote in the request text. */
  const Quote: string := ['\\', '"']
  const True: string := "true"
  const OwnSide: string := "p2"
  const P1: string := "p1"
  const P2: string := "p2"
  const PlayerInput: string := "player"
  const RatedInput: string := "rated"
  const TierInput: string := "tier"
  const RuleInput: string := "rule"
  const WinInput: string := "win"

  // =====================================================================
  // Fields of one roster entry
  // =====================================================================

  /** What `update_own_team` reads from one roster entry. */
  datatype Entry = Entry(
    name: string,
    level: string,
    gender: Option<string>,
    currentHp: string,
    maxHp: string,
    active: bool,
    attack: string,
    defense: string,
    specialAttack: string,
    specialDefense: string,
    speed: string,
    move1: string,
    move2: string,
    move3: string,
    move4: string,
    ability: string,
    baseAbility: string,
    item: string)

  /** `field.split(":")[-1]`: the text after the last colon. */
  function AfterColon(field: string): string {
    Last(Split(field, ':'))
  }

  /** `s.replace("\\\"", "")`. */
  function Unquote(s: string): string {
    RemoveAll(s, Quote)
  }

  /** `s.replace(c, "")` for a one-character `c`. */
  function Drop(s: string, c: char): string {
    RemoveAll(s, [c])
  }

  function NameField(f: string): string { Strip(Unquote(AfterColon(f))) }
  function LevelField(f: string): string { Strip(Drop(Unquote(f), 'L')) }
  function GenderField(f: string): string { Strip(Unquote(f)) }
  function ConditionField(f: string): seq<string> { Split(Strip(Unquote(AfterColon(f))), '/') }
  function ActiveField(f: string): bool { Strip(AfterColon(f)) == True }
  function StatField(f: string): string { Strip(AfterColon(f)) }
  function SpeedField(f: string): string { Strip(Drop(AfterColon(f), '}')) }
  function FirstMoveField(f: string): string { Strip(Drop(Unquote(AfterColon(f)), '[')) }
  function MoveField(f: string): string { Strip(Unquote(f)) }
  function LastMoveField(f: string): string { Strip(Drop(Unquote(f), ']')) }
  function TextField(f: string): string { Strip(Drop(Unquote(AfterColon(f)), '}')) }

  /** The fields of an entry already cut at its commas. Python's negative
      offsets count from the end; fewer than 15 fields, or a condition without
      a `/`, raise IndexError. */
  function ExtractFields(stats: seq<string>): (r: Result<Entry, Exception>)
    ensures r.Err? <==> |stats| < 15 || |ConditionField(stats[|stats| - 15])| < 2
    ensures r.Err? ==> r.error == IndexError
    ensures r.Ok? ==> (r.value.gender.Some? <==> |stats| == 19)
  {
    var n := |stats|;
    if n < 15 then Err(IndexError)
    else
      var hp := ConditionField(stats[n - 15]);
      if |hp| < 2 then Err(IndexError)
      else
        Ok(Entry(
          name := NameField(stats[1]),
          level := LevelField(stats[2]),
          gender := if n == 19 then Some(GenderField(stats[3])) else None,
          currentHp := hp[0],
          maxHp := hp[1],
          active := ActiveField(stats[n - 14]),
          attack := StatField(stats[n - 13]),
          defense := StatField(stats[n - 12]),
          specialAttack := StatField(stats[n - 11]),
          specialDefense := StatField(stats[n - 10]),
          speed := SpeedField(stats[n - 9]),
          move1 := FirstMoveField(stats[n - 8]),
          move2 := MoveField(stats[n - 7]),
          move3 := MoveField(stats[n - 6]),
          move4 := LastMoveField(stats[n - 5]),
          ability := TextField(stats[n - 1]),
          baseAbility := TextField(stats[n - 4]),
          item := TextField(stats[n - 3])))
  }

  /** The fields of one roster entry (room.py:214-240). */
  function ExtractEntry(entry: string): Result<Entry, Exception> {
    ExtractFields(Split(entry, ','))
  }

  // =====================================================================
  // Rendering an entry, and the round trip
  // =====================================================================

  /** Text the server can put in a field: no separator, quote, bracket or brace,
      and no surrounding blanks. */
  predicate Plain(v: string) {
    Trimmed(v) &&
    forall i :: 0 <= i < |v| ==> v[i] !in [',', ':', '/', '\\', '"', '{', '}', '[', ']']
  }

  predicate PlainEntry(e: Entry) {
    && Plain(e.name) && Plain(e.level) && 'L' !in e.level
    && (e.gender.Some? ==> Plain(e.gender.value))
    && Plain(e.currentHp) && Plain(e.maxHp)
    && Plain(e.attack) && Plain(e.defense) && Plain(e.specialAttack) && Plain(e.specialDefense) && Plain(e.speed)
    && Plain(e.move1) && Plain(e.move2) && Plain(e.move3) && Plain(e.move4)
    && Plain(e.ability) && Plain(e.baseAbility) && Plain(e.item)
  }

  /** `\"key\":` */
  function Key(k: string): string {
    Quote + k + Quote + ":"
  }

  function Quoted(v: string): string {
    Quote + v + Quote
  }

  // The fields as the server writes them, one function per kind of field.

  function IdentText(name: string): string { "{" + Key("ident") + Quote + "p2: " + name + Quote }
  function DetailsText(name: string): string { Key("details") + Quote + name }
  /** The level closes the details field unless a gender follows. */
  function LevelText(level: string, last: bool): string { " L" + level + (if last then Quote else "") }
  function GenderText(g: string): string { " " + g + Quote }
  function ConditionText(current: string, maxHp: string): string { Key("condition") + Quoted(current + "/" + maxHp) }
  function ActiveText(active: bool): string { Key("active") + (if active then True else "false") }
  function AttackText(v: string): string { Key("stats") + "{" + Key("atk") + v }
  function StatText(k: string, v: string): string { Key(k) + v }
  function SpeedText(v: string): string { Key("spe") + v + "}" }
  function FirstMoveText(m: string): string { Key("moves") + "[" + Quoted(m) }
  function LastMoveText(m: string): string { Quoted(m) + "]" }
  function PairText(k: string, v: string, tail: string): string { Key(k) + Quoted(v) + tail }

  /** The comma-separated fields of a roster entry as the server writes them:
      ident, details (name, level and optional gender), condition, active flag,
      the five stats, the four moves, base ability, item, ball and ability. */
  function RenderFields(e: Entry): (fs: seq<string>)
    ensures |fs| == if e.gender.Some? then 19 else 18
  {
    HeadFields(e) + TailFields(e)
  }

  /** Ident and details: the fields before the condition. */
  function HeadFields(e: Entry): (fs: seq<string>)
    ensures |fs| == if e.gender.Some? then 4 else 3
  {
    [IdentText(e.name), DetailsText(e.name), LevelText(e.level, e.gender.None?)]
    + (if e.gender.Some? then [GenderText(e.gender.value)] else [])
  }

  /** The fifteen fields from the condition on. */
  function TailFields(e: Entry): (fs: seq<string>)
    ensures |fs| == 15
  {
    [ ConditionText(e.currentHp, e.maxHp),
      ActiveText(e.active),
      AttackText(e.attack),
      StatText("def", e.defense),
      StatText("spa", e.specialAttack),
      StatText("spd", e.specialDefense),
      SpeedText(e.speed),
      FirstMoveText(e.move1),
      Quoted(e.move2),
      Quoted(e.move3),
      LastMoveText(e.move4),
      PairText("baseAbility", e.baseAbility, ""),
      PairText("item", e.item, ""),
      PairText("pokeball", "pokeball", ""),
      PairText("ability", e.ability, "}")]
  }

  function RenderEntry(e: Entry): string {
    Join(RenderFields(e), ',')
  }

  // ---- helper facts about the string operations on rendered fields

  lemma {:induction false} AfterLastColon(a: string, b: string)
    requires ':' !in b
    ensures |Split(a + [':'] + b, ':')| >= 2
    ensures AfterColon(a + [':'] + b) == b
    decreases |a|
  {
    var s := a + [':'] + b;
    if a == [] {
      assert s[1..] == b;
      SplitWithoutSep(b, ':');
    } else {
      assert s[1..] == a[1..] + [':'] + b;
      AfterLastColon(a[1..], b);
    }
  }

  lemma AfterKey(k: string, b: string)
    requires ':' !in b
    ensures AfterColon(Key(k) + b) == b
  {
    assert Key(k) + b == (Quote + k + Quote) + [':'] + b;
    AfterLastColon(Quote + k + Quote, b);
  }

  /** Removing quotes from text that has none before a quote. */
  lemma UnquoteFrom(a: string, b: string)
    requires '\\' !in a
    ensures Unquote(a + Quote + b) == a + Unquote(b)
  {
    RemoveAllKeeps(a, Quote + b, Quote);
    RemoveAllLeading(Quote, b);
    assert a + (Quote + b) == a + Quote + b;
  }

  lemma UnquoteNone(a: string)
    requires '\\' !in a
    ensures Unquote(a) == a
  {
    RemoveAllNone(a, Quote);
  }

  lemma DropTrailing(a: string, c: char)
    requires c !in a
    ensures Drop(a + [c], c) == a
  {
    RemoveAllKeeps(a, [c], [c]);
    RemoveAllLeading([c], []);
    assert [c] + [] == [c];
    assert a + [] == a;
  }

  lemma DropLeading(c: char, a: string)
    requires c !in a
    ensures Drop([c] + a, c) == a
  {
    RemoveAllLeading([c], a);
    RemoveAllNone(a, [c]);
  }

  lemma PlainChars(v: string)
    requires Plain(v)
    ensures ',' !in v && ':' !in v && '/' !in v && '\\' !in v && '"' !in v
    ensures '{' !in v && '}' !in v && '[' !in v && ']' !in v
  {
  }

  // ---- one lemma per kind of field

  lemma NameRoundTrip(name: string)
    requires Plain(name)
    ensures NameField(DetailsText(name)) == name
  {
    PlainChars(name);
    assert Key("details") + Quote + name == Key("details") + (Quote + name);
    AfterKey("details", Quote + name);
    UnquoteFrom([], name);
    assert [] + Quote + name == Quote + name;
    UnquoteNone(name);
    StripTrimmed(name);
  }

  lemma LevelRoundTrip(level: string, last: bool)
    requires Plain(level) && 'L' !in level
    ensures LevelField(LevelText(level, last)) == level
  {
    var tail := if last then Quote else "";
    assert LevelText(level, last) == " L" + level + tail;
    PlainChars(level);
    var s := " L" + level;
    assert '\\' !in s;
    if tail == [] {
      assert s + tail == s;
      UnquoteNone(s);
    } else {
      UnquoteFrom(s, []);
      assert s + Quote + [] == s + tail;
      assert Unquote([]) == [];
      assert s + [] == s;
    }
    assert s == [' '] + ("L" + level);
    RemoveAllKeeps([' '], "L" + level, "L");
    DropLeading('L', level);
    StripLeadingBlank(level);
  }

  lemma GenderRoundTrip(g: string)
    requires Plain(g)
    ensures GenderField(GenderText(g)) == g
  {
    PlainChars(g);
    UnquoteFrom(" " + g, []);
    assert " " + g + Quote + [] == " " + g + Quote;
    assert Unquote([]) == [];
    assert " " + g + [] == " " + g;
    StripLeadingBlank(g);
  }

  lemma ConditionParts(current: string, maxHp: string)
    requires Plain(current) && Plain(maxHp)
    ensures var v := current + "/" + maxHp;
            '\\' !in v && ':' !in v && Trimmed(v) && Split(v, '/') == [current, maxHp]
  {
    PlainChars(current);
    PlainChars(maxHp);
    SplitAtFirstSep(current, maxHp, '/');
    SplitWithoutSep(maxHp, '/');
  }

  lemma ConditionRoundTrip(current: string, maxHp: string)
    requires Plain(current) && Plain(maxHp)
    ensures ConditionField(ConditionText(current, maxHp)) == [current, maxHp]
  {
    var v := current + "/" + maxHp;
    ConditionParts(current, maxHp);
    assert ':' !in Quoted(v);
    AfterKey("condition", Quoted(v));
    QuotedValue(v);
    StripTrimmed(v);
  }

  lemma ActiveRoundTrip(active: bool)
    ensures ActiveField(ActiveText(active)) == active
  {
    var v := if active then True else "false";
    AfterKey("active", v);
    StripTrimmed(v);
  }

  lemma StatRoundTrip(k: string, v: string)
    requires Plain(v)
    ensures StatField(StatText(k, v)) == v
  {
    PlainChars(v);
    AfterKey(k, v);
    StripTrimmed(v);
  }

  lemma AttackRoundTrip(v: string)
    requires Plain(v)
    ensures StatField(AttackText(v)) == v
  {
    PlainChars(v);
    assert Key("stats") + "{" + Key("atk") + v == Key("stats") + "{" + Quote + "atk" + Quote + [':'] + v;
    AfterLastColon(Key("stats") + "{" + Quote + "atk" + Quote, v);
    StripTrimmed(v);
  }

  lemma SpeedRoundTrip(v: string)
    requires Plain(v)
    ensures SpeedField(SpeedText(v)) == v
  {
    PlainChars(v);
    assert Key("spe") + v + "}" == Key("spe") + (v + "}");
    AfterKey("spe", v + "}");
    DropTrailing(v, '}');
    StripTrimmed(v);
  }

  lemma FirstMoveRoundTrip(m: string)
    requires Plain(m)
    ensures FirstMoveField(FirstMoveText(m)) == m
  {
    PlainChars(m);
    assert Key("moves") + "[" + Quoted(m) == Key("moves") + ("[" + Quoted(m));
    AfterKey("moves", "[" + Quoted(m));
    UnquoteFrom("[", m + Quote);
    assert "[" + Quote + (m + Quote) == "[" + Quoted(m);
    UnquoteFrom(m, []);
    assert m + Quote + [] == m + Quote;
    assert Unquote([]) == [];
    assert m + [] == m;
    DropLeading('[', m);
    StripTrimmed(m);
  }

  lemma QuotedValue(v: string)
    requires '\\' !in v
    ensures Unquote(Quoted(v)) == v
  {
    UnquoteFrom([], v + Quote);
    assert [] + Quote + (v + Quote) == Quoted(v);
    UnquoteFrom(v, []);
    assert v + Quote + [] == v + Quote;
    assert Unquote([]) == [];
    assert v + [] == v;
  }

  lemma MoveRoundTrip(m: string)
    requires Plain(m)
    ensures MoveField(Quoted(m)) == m
  {
    PlainChars(m);
    QuotedValue(m);
    StripTrimmed(m);
  }

  lemma LastMoveRoundTrip(m: string)
    requires Plain(m)
    ensures LastMoveField(LastMoveText(m)) == m
  {
    PlainChars(m);
    UnquoteFrom([], m + Quote + "]");
    assert [] + Quote + (m + Quote + "]") == Quoted(m) + "]";
    UnquoteFrom(m, "]");
    assert m + Quote + "]" == m + Quote + "]";
    UnquoteNone("]");
    DropTrailing(m, ']');
    StripTrimmed(m);
  }

  lemma TextRoundTrip(k: string, v: string, tail: string)
    requires Plain(v) && (tail == [] || tail == "}")
    ensures TextField(PairText(k, v, tail)) == v
  {
    PlainChars(v);
    assert Key(k) + Quoted(v) + tail == Key(k) + (Quoted(v) + tail);
    AfterKey(k, Quoted(v) + tail);
    UnquoteFrom([], v + Quote + tail);
    assert [] + Quote + (v + Quote + tail) == Quoted(v) + tail;
    UnquoteFrom(v, tail);
    UnquoteNone(tail);
    if tail == [] {
      assert v + tail == v;
      RemoveAllNone(v, "}");
    } else {
      DropTrailing(v, '}');
    }
    StripTrimmed(v);
  }

  /** The fields of an entry cut at its commas are read back when each field
      reads back on its own. */
  lemma ExtractFieldsOf(stats: seq<string>, e: Entry)
    requires |stats| == if e.gender.Some? then 19 else 18
    requires NameField(stats[1]) == e.name && LevelField(stats[2]) == e.level
    requires e.gender.Some? ==> GenderField(stats[3]) == e.gender.value
    requires var t := stats[|stats| - 15..];
             && ConditionField(t[0]) == [e.currentHp, e.maxHp]
             && ActiveField(t[1]) == e.active
             && StatField(t[2]) == e.attack && StatField(t[3]) == e.defense
             && StatField(t[4]) == e.specialAttack && StatField(t[5]) == e.specialDefense
             && SpeedField(t[6]) == e.speed
             && FirstMoveField(t[7]) == e.move1 && MoveField(t[8]) == e.move2
             && MoveField(t[9]) == e.move3 && LastMoveField(t[10]) == e.move4
             && TextField(t[11]) == e.baseAbility && TextField(t[12]) == e.item
             && TextField(t[14]) == e.ability
    ensures ExtractFields(stats) == Ok(e)
  {
  }

  lemma PlainNoComma(v: string)
    requires Plain(v)
    ensures ',' !in v
  {
  }

  lemma NoCommaInKey(k: string)
    requires ',' !in k
    ensures ',' !in Key(k)
  {
  }

  lemma NoCommaInQuoted(v: string)
    requires ',' !in v
    ensures ',' !in Quoted(v)
  {
  }

  lemma NoCommaInStatTexts(e: Entry)
    requires PlainEntry(e)
    ensures ',' !in ConditionText(e.currentHp, e.maxHp) && ',' !in ActiveText(e.active)
    ensures ',' !in AttackText(e.attack) && ',' !in StatText("def", e.defense)
    ensures ',' !in StatText("spa", e.specialAttack) && ',' !in StatText("spd", e.specialDefense)
    ensures ',' !in SpeedText(e.speed)
  {
    PlainNoComma(e.currentHp); PlainNoComma(e.maxHp);
    PlainNoComma(e.attack); PlainNoComma(e.defense); PlainNoComma(e.specialAttack);
    PlainNoComma(e.specialDefense); PlainNoComma(e.speed);
    NoCommaInKey("condition"); NoCommaInKey("active"); NoCommaInKey("stats"); NoCommaInKey("atk");
    NoCommaInKey("def"); NoCommaInKey("spa"); NoCommaInKey("spd"); NoCommaInKey("spe");
    NoCommaInQuoted(e.currentHp + "/" + e.maxHp);
  }

  lemma NoCommaInMoveTexts(e: Entry)
    requires PlainEntry(e)
    ensures ',' !in FirstMoveText(e.move1) && ',' !in Quoted(e.move2)
    ensures ',' !in Quoted(e.move3) && ',' !in LastMoveText(e.move4)
    ensures ',' !in PairText("baseAbility", e.baseAbility, "") && ',' !in PairText("item", e.item, "")
    ensures ',' !in PairText("pokeball", "pokeball", "") && ',' !in PairText("ability", e.ability, "}")
  {
    PlainNoComma(e.move1); PlainNoComma(e.move2); PlainNoComma(e.move3); PlainNoComma(e.move4);
    PlainNoComma(e.ability); PlainNoComma(e.baseAbility); PlainNoComma(e.item);
    NoCommaInKey("moves"); NoCommaInKey("baseAbility"); NoCommaInKey("item");
    NoCommaInKey("pokeball"); NoCommaInKey("ability");
    NoCommaInQuoted(e.move1); NoCommaInQuoted(e.move2); NoCommaInQuoted(e.move3); NoCommaInQuoted(e.move4);
    NoCommaInQuoted(e.baseAbility); NoCommaInQuoted(e.item); NoCommaInQuoted("pokeball");
    NoCommaInQuoted(e.ability);
  }

  lemma NoCommaInFields(e: Entry)
    requires PlainEntry(e)
    ensures forall i :: 0 <= i < |RenderFields(e)| ==> ',' !in RenderFields(e)[i]
  {
    NoCommaInHead(e);
    NoCommaInTail(e);
    var h, t := HeadFields(e), TailFields(e);
    assert forall i :: 0 <= i < |h| + |t| ==> (h + t)[i] == if i < |h| then h[i] else t[i - |h|];
  }

  lemma NoCommaInHead(e: Entry)
    requires PlainEntry(e)
    ensures forall i :: 0 <= i < |HeadFields(e)| ==> ',' !in HeadFields(e)[i]
  {
    PlainNoComma(e.name);
    PlainNoComma(e.level);
    NoCommaInKey("ident");
    NoCommaInKey("details");
    if e.gender.Some? {
      PlainNoComma(e.gender.value);
    }
  }

  lemma NoCommaInTail(e: Entry)
    requires PlainEntry(e)
    ensures forall i :: 0 <= i < 15 ==> ',' !in TailFields(e)[i]
  {
    NoCommaInStatTexts(e);
    NoCommaInMoveTexts(e);
  }

  lemma HeadRoundTrip(e: Entry)
    requires PlainEntry(e)
    ensures var h := HeadFields(e);
            && NameField(h[1]) == e.name && LevelField(h[2]) == e.level
            && (e.gender.Some? ==> GenderField(h[3]) == e.gender.value)
  {
    NameRoundTrip(e.name);
    LevelRoundTrip(e.level, e.gender.None?);
    if e.gender.Some? {
      GenderRoundTrip(e.gender.value);
    }
  }

  lemma TailRoundTrip(e: Entry)
    requires PlainEntry(e)
    ensures var t := TailFields(e);
            && ConditionField(t[0]) == [e.currentHp, e.maxHp]
            && ActiveField(t[1]) == e.active
            && StatField(t[2]) == e.attack && StatField(t[3]) == e.defense
            && StatField(t[4]) == e.specialAttack && StatField(t[5]) == e.specialDefense
            && SpeedField(t[6]) == e.speed
            && FirstMoveField(t[7]) == e.move1 && MoveField(t[8]) == e.move2
            && MoveField(t[9]) == e.move3 && LastMoveField(t[10]) == e.move4
            && TextField(t[11]) == e.baseAbility && TextField(t[12]) == e.item
            && TextField(t[14]) == e.ability
  {
    StatsRoundTrip(e);
    MovesRoundTrip(e);
  }

  lemma StatsRoundTrip(e: Entry)
    requires PlainEntry(e)
    ensures var t := TailFields(e);
            && ConditionField(t[0]) == [e.currentHp, e.maxHp]
            && ActiveField(t[1]) == e.active
            && StatField(t[2]) == e.attack && StatField(t[3]) == e.defense
            && StatField(t[4]) == e.specialAttack && StatField(t[5]) == e.specialDefense
            && SpeedField(t[6]) == e.speed
  {
    var t := TailFields(e);
    assert t[0] == ConditionText(e.currentHp, e.maxHp) && t[1] == ActiveText(e.active);
    assert t[2] == AttackText(e.attack) && t[3] == StatText("def", e.defense);
    assert t[4] == StatText("spa", e.specialAttack) && t[5] == StatText("spd", e.specialDefense);
    assert t[6] == SpeedText(e.speed);
    ConditionRoundTrip(e.currentHp, e.maxHp);
    ActiveRoundTrip(e.active);
    AttackRoundTrip(e.attack);
    StatRoundTrip("def", e.defense);
    StatRoundTrip("spa", e.specialAttack);
    StatRoundTrip("spd", e.specialDefense);
    SpeedRoundTrip(e.speed);
  }

  lemma MovesRoundTrip(e: Entry)
    requires PlainEntry(e)
    ensures var t := TailFields(e);
            && FirstMoveField(t[7]) == e.move1 && MoveField(t[8]) == e.move2
            && MoveField(t[9]) == e.move3 && LastMoveField(t[10]) == e.move4
            && TextField(t[11]) == e.baseAbility && TextField(t[12]) == e.item
            && TextField(t[14]) == e.ability
  {
    var t := TailFields(e);
    assert t[7] == FirstMoveText(e.move1) && t[8] == Quoted(e.move2);
    assert t[9] == Quoted(e.move3) && t[10] == LastMoveText(e.move4);
    FirstMoveRoundTrip(e.move1);
    MoveRoundTrip(e.move2);
    MoveRoundTrip(e.move3);
    LastMoveRoundTrip(e.move4);
    AbilitiesRoundTrip(e);
  }

  lemma AbilitiesRoundTrip(e: Entry)
    requires PlainEntry(e)
    ensures var t := TailFields(e);
            && TextField(t[11]) == e.baseAbility && TextField(t[12]) == e.item
            && TextField(t[14]) == e.ability
  {
    var t := TailFields(e);
    assert t[11] == PairText("baseAbility", e.baseAbility, "") && t[12] == PairText("item", e.item, "");
    assert t[14] == PairText("ability", e.ability, "}");
    TextRoundTrip("baseAbility", e.baseAbility, []);
    TextRoundTrip("item", e.item, []);
    TextRoundTrip("ability", e.ability, "}");
  }

  /** Extracting the fields of a rendered entry gives the entry back. */
  lemma ExtractRender(e: Entry)
    requires PlainEntry(e)
    ensures ExtractEntry(RenderEntry(e)) == Ok(e)
  {
    var fs := RenderFields(e);
    NoCommaInFields(e);
    SplitJoin(fs, ',');
    HeadRoundTrip(e);
    TailRoundTrip(e);
    var h := HeadFields(e);
    assert fs[1] == h[1] && fs[2] == h[2];
    assert e.gender.Some? ==> fs[3] == h[3];
    assert fs[|fs| - 15..] == TailFields(e);
    ExtractFieldsOf(fs, e);
  }

  // =====================================================================
  // The own team
  // =====================================================================

  /** What each roster entry extracts to. */
  function Extracted(entries: seq<string>): (rs: seq<Result<Entry, Exception>>)
    ensures |rs| == |entries|
    ensures forall j :: 0 <= j < |rs| ==> rs[j] == ExtractEntry(entries[j])
  {
    seq(|entries|, j requires 0 <= j < |entries| => ExtractEntry(entries[j]))
  }

  /** The entries read before the first one that raises, and what it raised. */
  function Scan(rs: seq<Result<Entry, Exception>>): (r: (seq<Entry>, Option<Exception>))
    ensures |r.0| <= |rs|
    ensures forall j :: 0 <= j < |r.0| ==> rs[j] == Ok(r.0[j])
    ensures r.1.None? ==> |r.0| == |rs|
    ensures r.1.Some? ==> |r.0| < |rs| && rs[|r.0|] == Err(r.1.value)
    decreases |rs|
  {
    if rs == [] then ([], None)
    else
      var prev := Scan(rs[..|rs| - 1]);
      if prev.1.Some? then prev
      else
        match Last(rs)
        case Err(x) => (prev.0, Some(x))
        case Ok(e) => (prev.0 + [e], None)
  }

  /** Once an entry has raised, later entries change nothing. */
  lemma {:induction false} ScanErrorSticks(rs: seq<Result<Entry, Exception>>, k: nat)
    requires k <= |rs| && Scan(rs[..k]).1.Some?
    ensures Scan(rs) == Scan(rs[..k])
    decreases |rs|
  {
    if k < |rs| {
      assert rs[..|rs| - 1][..k] == rs[..k];
      ScanErrorSticks(rs[..|rs| - 1], k);
    } else {
      assert rs[..k] == rs;
    }
  }

  /** The Pokémon built from the entry at 0-based position `i`. */
  function Member(e: Entry, i: nat): PokemonData {
    PokemonData(e.name, Some(i + 1), e.level, e.gender, e.currentHp,
                Stats(e.maxHp, e.attack, e.defense, e.specialAttack, e.specialDefense, e.speed),
                NoBaseStats, e.item, e.ability, e.baseAbility, [],
                [e.move1, e.move2, e.move3, e.move4], e.active, [], false)
  }

  /** The members of a team built from `es`: the first six, in order. */
  predicate BuiltFrom(ps: seq<Pokemon>, es: seq<Entry>)
    reads ps
  {
    && |ps| == Min(|es|, 6)
    && (forall j :: 0 <= j < |ps| ==> ps[j].Data() == Member(es[j], j))
    && (forall j :: 0 <= j < |ps| ==> ps[j].completeMoves == [])
  }

  function Min(a: int, b: int): int {
    if a <= b then a else b
  }

  // =====================================================================
  // Battle
  // =====================================================================

  /** The battle fields `update` and `add_turn` change. Players are kept by name. */
  datatype BattleState = BattleState(
    currentTurn: int,
    rules: seq<string>,
    p1: Option<string>,
    p2: Option<string>,
    rated: bool,
    ended: bool,
    tier: Option<string>,
    winner: Option<string>,
    winnerId: Option<string>,
    loser: Option<string>,
    loserId: Option<string>)

  /** `params[i]`, raising IndexError when there are too few. */
  function Param(params: seq<string>, i: nat): Result<string, Exception> {
    if i < |params| then Ok(params[i]) else Err(IndexError)
  }

  /** The effect of `Battle.update(inpType, *params)` on the battle fields.
      `nameMatches(user, name)` is the user's `name_matches`, `toId` is
      `utils.name_to_id`. */
  function Updated(s: BattleState, inpType: string, params: seq<string>,
                   nameMatches: (string, string) -> bool, toId: string -> string): Result<BattleState, Exception> {
    if inpType == PlayerInput then
      var playerId :- Param(params, 0);
      var name :- Param(params, 1);
      if name == [] || (playerId != P1 && playerId != P2) then Ok(s)
      else if playerId == P1 then Ok(s.(p1 := Some(name)))
      else Ok(s.(p2 := Some(name)))
    else if inpType == RatedInput then Ok(s.(rated := true))
    else if inpType == TierInput then
      var t :- Param(params, 0);
      Ok(s.(tier := Some(toId(t))))
    else if inpType == RuleInput then
      var rule :- Param(params, 0);
      Ok(s.(rules := s.rules + [rule]))
    else if inpType == WinInput then
      var winnerName :- Param(params, 0);
      if s.p1.None? then Err(AttributeError)
      else if nameMatches(s.p1.value, winnerName) then
        Ok(s.(winner := s.p1, winnerId := Some(P1), loser := s.p2, loserId := Some(P2), ended := true))
      else if s.p2.None? then Err(AttributeError)
      else if nameMatches(s.p2.value, winnerName) then
        Ok(s.(winner := s.p2, winnerId := Some(P2), loser := s.p1, loserId := Some(P1), ended := true))
      else Ok(s.(ended := true))
    else Ok(s)
  }

  class Battle {
    var currentTurn: int
    var rules: seq<string>
    var p1: Option<string>
    var p2: Option<string>
    var rated: bool
    var ended: bool
    var tier: Option<string>
    var winner: Option<string>
    var winnerId: Option<string>
    var loser: Option<string>
    var loserId: Option<string>
    var ownTeam: Team?

    function State(): BattleState
      reads this
    {
      BattleState(currentTurn, rules, p1, p2, rated, ended, tier, winner, winnerId, loser, loserId)
    }

    constructor ()
      ensures State() == BattleState(0, [], None, None, false, false, None, None, None, None, None)
      ensures ownTeam == null
    {
      currentTurn := 0;
      rules := [];
      p1, p2 := None, None;
      rated, ended := false, false;
      tier := None;
      winner, winnerId, loser, loserId := None, None, None, None;
      ownTeam := null;
    }

    /** `add_turn`. */
    method AddTurn()
      modifies this`currentTurn
      ensures State() == old(State()).(currentTurn := old(currentTurn) + 1)
    {
      currentTurn := currentTurn + 1;
    }

    /** `update(inpType, *params)` for a battle room. */
    method Update(inpType: string, params: seq<string>,
                  nameMatches: (string, string) -> bool, toId: string -> string) returns (err: Option<Exception>)
      modifies this`rules, this`p1, this`p2, this`rated, this`ended, this`tier
      modifies this`winner, this`winnerId, this`loser, this`loserId
      ensures match Updated(old(State()), inpType, params, nameMatches, toId)
              case Ok(t) => err.None? && State() == t
              case Err(x) => err == Some(x) && State() == old(State())
    {
      err := None;
      if inpType == PlayerInput {
        if |params| < 2 {
          return Some(IndexError);
        }
        var playerId, name := params[0], params[1];
        if name == [] || (playerId != P1 && playerId != P2) {
          return;
        }
        if playerId == P1 {
          p1 := Some(name);
        } else {
          p2 := Some(name);
        }
      } else if inpType == RatedInput {
        rated := true;
      } else if inpType == TierInput {
        if |params| < 1 {
          return Some(IndexError);
        }
        tier := Some(toId(params[0]));
      } else if inpType == RuleInput {
        if |params| < 1 {
          return Some(IndexError);
        }
        rules := rules + [params[0]];
      } else if inpType == WinInput {
        if |params| < 1 {
          return Some(IndexError);
        }
        var winnerName := params[0];
        if p1.None? {
          return Some(AttributeError);
        }
        if nameMatches(p1.value, winnerName) {
          winner, winnerId := p1, Some(P1);
          loser, loserId := p2, Some(P2);
        } else {
          if p2.None? {
            return Some(AttributeError);
          }
          if nameMatches(p2.value, winnerName) {
            winner, winnerId := p2, Some(P2);
            loser, loserId := p1, Some(P1);
          }
        }
        ended := true;
      }
    }

    /** `update_own_team` on the roster entries of a team request: a fresh team
        for side "p2" receives one Pokémon per entry, in order, until an entry
        raises; the team keeps the first six. */
    method UpdateOwnTeam(entries: seq<string>) returns (err: Option<Exception>)
      modifies this`ownTeam
      ensures ownTeam != null && fresh(ownTeam) && fresh(ownTeam.buffs)
      ensures ownTeam.player == OwnSide && ownTeam.Valid() && ownTeam.buffs.Counters() == NoStages
      ensures err == Scan(Extracted(entries)).1
      ensures BuiltFrom(ownTeam.pokemons, Scan(Extracted(entries)).0)
      ensures Separate(ownTeam.pokemons)
    {
      var team := new Team(OwnSide);
      ownTeam := team;
      err := ReceiveEntries(team, entries);
    }
  }

  /** The loop of `update_own_team`: each entry in turn becomes a Pokémon
      numbered by its position and joins the team, until an entry raises. */
  method ReceiveEntries(team: Team, entries: seq<string>) returns (err: Option<Exception>)
    requires team.Valid() && team.pokemons == []
    modifies team`pokemons
    ensures team.Valid()
    ensures err == Scan(Extracted(entries)).1
    ensures BuiltFrom(team.pokemons, Scan(Extracted(entries)).0)
    ensures Separate(team.pokemons)
  {
    ghost var rs := Extracted(entries);
    ghost var es: seq<Entry> := [];
    for i := 0 to |entries|
      invariant Scan(rs[..i]) == (es, None) && |es| == i
      invariant team.Valid() && BuiltFrom(team.pokemons, es)
      invariant Separate(team.pokemons)
    {
      assert rs[..i + 1][..i] == rs[..i];
      var entry := ExtractEntry(entries[i]);
      if entry.Err? {
        ScanErrorSticks(rs, i + 1);
        return Some(entry.error);
      }
      assert Last(rs[..i + 1]) == Ok(entry.value);
      assert Scan(rs[..i + 1]) == (es + [entry.value], None);
      Admit(team, entry.value, i, es);
      es := es + [entry.value];
    }
    assert rs[..|entries|] == rs;
    err := None;
  }

  /** The Pokémon `update_own_team` builds from the entry at position `i`. */
  method NewMember(e: Entry, i: nat) returns (p: Pokemon)
    ensures fresh(p) && p.Data() == Member(e, i) && p.completeMoves == [] && p.DistinctMoves()
  {
    p := new Pokemon(e.name, Some(i), e.level, e.gender, e.currentHp, e.maxHp,
                     e.attack, e.defense, e.specialAttack, e.specialDefense, e.speed,
                     e.move1, e.move2, e.move3, e.move4,
                     e.ability, e.baseAbility, e.item, e.active);
  }

  /** One iteration of `update_own_team`: the Pokémon built from the entry at
      position `i` joins while the team has room. */
  method Admit(team: Team, e: Entry, i: nat, ghost es: seq<Entry>)
    requires i == |es| && team.Valid() && BuiltFrom(team.pokemons, es) && Separate(team.pokemons)
    modifies team`pokemons
    ensures team.Valid() && BuiltFrom(team.pokemons, es + [e]) && Separate(team.pokemons)
  {
    var p := NewMember(e, i);
    AddMember(team, p, es, e);
  }

  method AddMember(team: Team, p: Pokemon, ghost es: seq<Entry>, ghost e: Entry)
    requires team.Valid() && BuiltFrom(team.pokemons, es) && Separate(team.pokemons)
    requires p !in team.pokemons && p.Data() == Member(e, |es|) && p.completeMoves == [] && p.DistinctMoves()
    modifies team`pokemons
    ensures team.Valid() && BuiltFrom(team.pokemons, es + [e]) && Separate(team.pokemons)
  {
    ghost var next := if |team.pokemons| <= 5 then team.pokemons + [p] else team.pokemons;
    BuiltSnoc(team.pokemons, es, p, e);
    SeparateSnoc(team.pokemons, p);
    team.AddPokemon(p);
    assert team.pokemons == next;
  }

  lemma BuiltSnoc(ps: seq<Pokemon>, es: seq<Entry>, p: Pokemon, e: Entry)
    requires BuiltFrom(ps, es) && p.Data() == Member(e, |es|) && p.completeMoves == []
    ensures BuiltFrom(if |ps| <= 5 then ps + [p] else ps, es + [e])
  {
    if |ps| <= 5 {
      var next := ps + [p];
      assert forall j :: 0 <= j < |ps| ==> next[j] == ps[j] && (es + [e])[j] == es[j];
    }
  }

  lemma SeparateSnoc(ps: seq<Pokemon>, p: Pokemon)
    requires Separate(ps) && p !in ps && p.completeMoves == [] && p.DistinctMoves()
    ensures Separate(ps + [p]) && Separate(ps)
  {
    var next := ps + [p];
    assert forall j :: 0 <= j < |ps| ==> next[j] == ps[j];
  }

  // =====================================================================
  // Properties of the battle bookkeeping
  // =====================================================================

  /** `rated` sets the flag and nothing else. */
  lemma RatedOnlySetsFlag(s: BattleState, params: seq<string>, nameMatches: (string, string) -> bool, toId: string -> string)
    ensures Updated(s, RatedInput, params, nameMatches, toId) == Ok(s.(rated := true))
  {
  }

  /** `tier` stores the identifier form of its parameter, and nothing else changes. */
  lemma TierStoresId(s: BattleState, params: seq<string>,
                     nameMatches: (string, string) -> bool, toId: string -> string)
    requires |params| >= 1
    ensures Updated(s, TierInput, params, nameMatches, toId) == Ok(s.(tier := Some(toId(params[0]))))
  {
  }

  /** `rule` appends its parameter to the rules, and nothing else changes. */
  lemma RuleAppends(s: BattleState, rule: string, params: seq<string>,
                    nameMatches: (string, string) -> bool, toId: string -> string)
    requires |params| >= 1 && params[0] == rule
    ensures Updated(s, RuleInput, params, nameMatches, toId) == Ok(s.(rules := s.rules + [rule]))
  {
  }

  /** `player` records a player only for the ids p1 and p2 with a non-empty name. */
  lemma PlayerRecordedOnlyForSides(s: BattleState, params: seq<string>,
                                   nameMatches: (string, string) -> bool, toId: string -> string)
    requires |params| >= 2
    ensures var t := Updated(s, PlayerInput, params, nameMatches, toId).value;
            && (t != s ==> params[1] != [] && (params[0] == P1 || params[0] == P2))
            && t.p1 == (if params[0] == P1 && params[1] != [] then Some(params[1]) else s.p1)
            && t.p2 == (if params[0] == P2 && params[1] != [] then Some(params[1]) else s.p2)
            && t.(p1 := s.p1, p2 := s.p2) == s
  {
  }

  /** `win` ends the battle whenever both players are known, whether or not the
      winner's name matches either of them. */
  lemma WinAlwaysEnds(s: BattleState, params: seq<string>,
                      nameMatches: (string, string) -> bool, toId: string -> string)
    requires |params| >= 1 && s.p1.Some? && s.p2.Some?
    ensures Updated(s, WinInput, params, nameMatches, toId).Ok?
    ensures Updated(s, WinInput, params, nameMatches, toId).value.ended
  {
  }

  /** `win` names the first player whose name matches as the winner, the other
      as the loser; when none matches, no winner is recorded. */
  lemma WinRecordsMatchingPlayer(s: BattleState, params: seq<string>,
                                 nameMatches: (string, string) -> bool, toId: string -> string)
    requires |params| >= 1 && s.p1.Some? && s.p2.Some?
    ensures var t := Updated(s, WinInput, params, nameMatches, toId).value;
            && (nameMatches(s.p1.value, params[0]) ==> t.winnerId == Some(P1) && t.winner == s.p1 && t.loser == s.p2)
            && (!nameMatches(s.p1.value, params[0]) && nameMatches(s.p2.value, params[0]) ==>
                  t.winnerId == Some(P2) && t.winner == s.p2 && t.loser == s.p1)
            && (!nameMatches(s.p1.value, params[0]) && !nameMatches(s.p2.value, params[0]) ==>
                  t == s.(ended := true))
  {
  }

  /** `win` before the first player is known raises AttributeError and changes nothing. */
  lemma WinWithoutPlayersRaises(s: BattleState, params: seq<string>,
                                nameMatches: (string, string) -> bool, toId: string -> string)
    requires |params| >= 1 && s.p1.None?
    ensures Updated(s, WinInput, params, nameMatches, toId) == Err(AttributeError)
  {
  }

  /** Messages of other kinds leave the battle fields alone. */
  lemma OtherInputsIgnored(s: BattleState, inpType: string, params: seq<string>,
                           nameMatches: (string, string) -> bool, toId: string -> string)
    requires inpType !in {PlayerInput, RatedInput, TierInput, RuleInput, WinInput}
    ensures Updated(s, inpType, params, nameMatches, toId) == Ok(s)
  {
  }
}
