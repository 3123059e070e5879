/** The battle map's event reducer (webapp/src/views/battlemap.js). The
    reducer copies the game data shallowly: the new state shares the
    character table and the event log with the previous one, so the updates
    below land in both, until `setAllCharacters` swaps in another table or
    trimming swaps in a shorter log. Character records are kept as values
    keyed by id. */
module BattleMap {
  import opened Common

  /** The largest number of log entries kept. */
  const MaxLogSize: nat := 250

  datatype Pos = Pos(x: int, y: int)

  datatype CharEntry = CharEntry(id: int, name: string, hp: int, pos: Pos, status: string)

  datatype LogEntry = LogEntry(timestamp: int, message: string, color: string)

  /** The character map, keyed by character id. */
  class CharacterTable {
    var entries: map<int, CharEntry>

    constructor (entries: map<int, CharEntry>)
      ensures this.entries == entries
    {
      this.entries := entries;
    }
  }

  /** The event log, oldest entry first. */
  class EventLog {
    var entries: seq<LogEntry>

    constructor (entries: seq<LogEntry>)
      ensures this.entries == entries
    {
      this.entries := entries;
    }
  }

  /** The reducer's state: two references, copied by the spread. */
  datatype GameData = GameData(characters: CharacterTable, log: EventLog)

  datatype Action =
    | SetCharacter(character: CharEntry)
    | CharacterPlace(placed: int, to: Pos)
    | CharacterMove(moved: int, to: Pos)
    | SetAllCharacters(table: CharacterTable)
    | AddCharacters(characters: seq<CharEntry>)
    | CharacterDied(died: int, timestamp: int, reason: string)
    | CharacterAttack(attacker: int, victim: int, hit: int, damage: int, timestamp: int)
    | Other(kind: string)

  /** Reading a property of a missing character throws a TypeError. */
  datatype ReducerError = TypeError

  /** What the switch does to the shared table and log, and whether it
      throws on the way. */
  datatype Effect = Effect(chars: map<int, CharEntry>, log: seq<LogEntry>, thrown: bool)

  function DiedMessage(name: string, reason: string): string
  {
    name + " died, reason=" + reason
  }

  function AttackMessage(attacker: string, victim: string, hit: int, damage: int): string
  {
    attacker + " hit " + victim + " with a " + IntToString(hit) + " for " + IntToString(damage) + " damage!"
  }

  /** The table after each character of `cs` is stored under its id, in
      order, so a later character overwrites an earlier one with its id. */
  function InsertAll(m: map<int, CharEntry>, cs: seq<CharEntry>): (r: map<int, CharEntry>)
    ensures m.Keys <= r.Keys
    ensures forall i :: 0 <= i < |cs| ==> cs[i].id in r
  {
    if |cs| == 0 then m
    else InsertAll(m, cs[..|cs| - 1])[cs[|cs| - 1].id := cs[|cs| - 1]]
  }

  /** The action names a character the table does not hold, so reading its
      properties throws. */
  predicate Dangling(chars: map<int, CharEntry>, action: Action)
  {
    match action
    case CharacterPlace(id, _) => id !in chars
    case CharacterMove(id, _) => id !in chars
    case CharacterDied(id, _, _) => id !in chars
    case CharacterAttack(attacker, victim, _, _, _) => victim !in chars || attacker !in chars
    case _ => false
  }

  /** The effect of the reducer's switch on the shared table and log: it
      throws exactly for an action naming a missing character, and then logs
      nothing; no character is ever dropped from the table. */
  function Apply(chars: map<int, CharEntry>, log: seq<LogEntry>, action: Action): (r: Effect)
    ensures r.thrown <==> Dangling(chars, action)
    ensures r.thrown ==> r.log == log
    ensures chars.Keys <= r.chars.Keys
  {
    match action
    case SetCharacter(c) => Effect(chars[c.id := c], log, false)
    case CharacterPlace(id, to) =>
      if id in chars then Effect(chars[id := chars[id].(pos := to)], log, false) else Effect(chars, log, true)
    case CharacterMove(id, to) =>
      if id in chars then Effect(chars[id := chars[id].(pos := to)], log, false) else Effect(chars, log, true)
    case SetAllCharacters(_) => Effect(chars, log, false)
    case AddCharacters(cs) => Effect(InsertAll(chars, cs), log, false)
    case CharacterDied(id, timestamp, reason) =>
      if id in chars then
        Effect(chars[id := chars[id].(status := "dead")],
               log + [LogEntry(timestamp, DiedMessage(chars[id].name, reason), "red")], false)
      else Effect(chars, log, true)
    case CharacterAttack(attacker, victim, hit, damage, timestamp) =>
      if victim !in chars then Effect(chars, log, true)
      else
        var hurt := chars[victim := chars[victim].(hp := chars[victim].hp - damage)];
        if attacker !in hurt then Effect(hurt, log, true)
        else
          var message := AttackMessage(hurt[attacker].name, hurt[victim].name, hit, damage);
          Effect(hurt, log + [LogEntry(timestamp, message, "white")], false)
    case Other(_) => Effect(chars, log, false)
  }

  /** The log once trimmed to its most recent entries. */
  function Trim(log: seq<LogEntry>): (r: seq<LogEntry>)
    ensures |r| <= MaxLogSize
    ensures |r| == (if |log| > MaxLogSize then MaxLogSize else |log|)
    ensures r == log[|log| - |r|..]
  {
    if |log| > MaxLogSize then log[|log| - MaxLogSize..] else log
  }

  /** The `addCharacters` loop: each character is stored under its id. */
  method StoreAll(table: CharacterTable, cs: seq<CharEntry>)
    modifies table
    ensures table.entries == InsertAll(old(table.entries), cs)
  {
    var i := 0;
    while i < |cs|
      invariant 0 <= i <= |cs|
      invariant table.entries == InsertAll(old(table.entries), cs[..i])
    {
      assert cs[..i + 1][..i] == cs[..i];
      table.entries := table.entries[cs[i].id := cs[i]];
      i := i + 1;
    }
    assert cs[..i] == cs;
  }

  /** The reducer's switch, acting on the shared table and log; `thrown`
      tells whether it stopped with a TypeError. */
  method ApplyInPlace(table: CharacterTable, log: EventLog, action: Action) returns (thrown: bool)
    modifies table, log
    ensures var e := Apply(old(table.entries), old(log.entries), action);
      table.entries == e.chars && log.entries == e.log && thrown == e.thrown
  {
    thrown := false;
    match action {
      case SetCharacter(c) =>
        table.entries := table.entries[c.id := c];
      case CharacterPlace(id, to) =>
        if id !in table.entries {
          return true;
        }
        table.entries := table.entries[id := table.entries[id].(pos := to)];
      case CharacterMove(id, to) =>
        if id !in table.entries {
          return true;
        }
        table.entries := table.entries[id := table.entries[id].(pos := to)];
      case SetAllCharacters(_) =>
      case AddCharacters(cs) =>
        StoreAll(table, cs);
      case CharacterDied(id, timestamp, reason) =>
        if id !in table.entries {
          return true;
        }
        table.entries := table.entries[id := table.entries[id].(status := "dead")];
        log.entries := log.entries + [LogEntry(timestamp, DiedMessage(table.entries[id].name, reason), "red")];
      case CharacterAttack(attacker, victim, hit, damage, timestamp) =>
        if victim !in table.entries {
          return true;
        }
        table.entries := table.entries[victim := table.entries[victim].(hp := table.entries[victim].hp - damage)];
        if attacker !in table.entries {
          return true;
        }
        var message := AttackMessage(table.entries[attacker].name, table.entries[victim].name, hit, damage);
        log.entries := log.entries + [LogEntry(timestamp, message, "white")];
      case Other(_) =>
    }
  }

  /** `reducer(gameData, action)`: on success the new state; the shared
      table and log keep whatever the switch did before any throw. */
  method Reduce(gameData: GameData, action: Action) returns (r: Result<GameData, ReducerError>)
    modifies gameData.characters, gameData.log
    ensures var e := Apply(old(gameData.characters.entries), old(gameData.log.entries), action);
      && gameData.characters.entries == e.chars
      && gameData.log.entries == e.log
      && (r.Err? <==> e.thrown)
      && (r.Ok? ==> r.value.characters == (if action.SetAllCharacters? then action.table else gameData.characters))
      && (r.Ok? && |e.log| > MaxLogSize ==> fresh(r.value.log) && r.value.log.entries == Trim(e.log))
      && (r.Ok? && |e.log| <= MaxLogSize ==> r.value.log == gameData.log)
  {
    var newGameData := gameData;
    var thrown := ApplyInPlace(gameData.characters, gameData.log, action);
    if thrown {
      return Err(TypeError);
    }
    if action.SetAllCharacters? {
      newGameData := newGameData.(characters := action.table);
    }
    var log := newGameData.log;
    if |log.entries| > MaxLogSize {
      var trimmed := new EventLog(log.entries[|log.entries| - MaxLogSize..]);
      newGameData := newGameData.(log := trimmed);
    }
    return Ok(newGameData);
  }

  /** Whatever the action, the switch adds at most one log entry and never
      changes the entries already there. */
  lemma AtMostOneEntry(chars: map<int, CharEntry>, log: seq<LogEntry>, action: Action)
    ensures var e := Apply(chars, log, action);
      e.log == log || (|e.log| == |log| + 1 && e.log[..|log|] == log)
  {
  }

  /** After any action the log a caller sees has at most 250 entries: the
      most recent ones, in order. */
  lemma LogStaysBounded(chars: map<int, CharEntry>, log: seq<LogEntry>, action: Action)
    requires |log| <= MaxLogSize
    ensures var e := Apply(chars, log, action);
      |Trim(e.log)| <= MaxLogSize && Trim(e.log) == e.log[|e.log| - |Trim(e.log)|..]
      && (|e.log| == MaxLogSize + 1 ==> Trim(e.log) == log[1..] + [e.log[MaxLogSize]])
  {
    var e := Apply(chars, log, action);
    if |e.log| == MaxLogSize + 1 {
      AtMostOneEntry(chars, log, action);
      assert e.log == log + [e.log[MaxLogSize]];
    }
  }

  /** `characterDied` marks the character dead, changes nothing else, and
      appends exactly one red entry naming it. */
  lemma DiedMarksDead(chars: map<int, CharEntry>, log: seq<LogEntry>, id: int, timestamp: int, reason: string)
    requires id in chars
    ensures var e := Apply(chars, log, CharacterDied(id, timestamp, reason));
      && !e.thrown && e.chars[id] == chars[id].(status := "dead")
      && (forall k :: k != id ==> (k in e.chars <==> k in chars) && (k in chars ==> e.chars[k] == chars[k]))
      && e.log == log + [LogEntry(timestamp, DiedMessage(chars[id].name, reason), "red")]
  {
  }

  /** `characterAttack` lowers the victim's hp by the damage, changes no
      other character and appends exactly one white entry. */
  lemma AttackLowersVictim(chars: map<int, CharEntry>, log: seq<LogEntry>,
                           attacker: int, victim: int, hit: int, damage: int, timestamp: int)
    requires attacker in chars && victim in chars
    ensures var e := Apply(chars, log, CharacterAttack(attacker, victim, hit, damage, timestamp));
      && !e.thrown && e.chars == chars[victim := chars[victim].(hp := chars[victim].hp - damage)]
      && |e.log| == |log| + 1 && e.log[..|log|] == log && e.log[|log|].color == "white"
  {
    var e := Apply(chars, log, CharacterAttack(attacker, victim, hit, damage, timestamp));
    assert e.log[..|log|] == log;
  }

  /** An attack whose attacker is missing throws only after the victim's hp
      has been lowered, and logs nothing. */
  lemma AttackWithoutAttacker(chars: map<int, CharEntry>, log: seq<LogEntry>,
                              attacker: int, victim: int, hit: int, damage: int, timestamp: int)
    requires victim in chars && attacker !in chars
    ensures var e := Apply(chars, log, CharacterAttack(attacker, victim, hit, damage, timestamp));
      && e.thrown && e.log == log && e.chars[victim].hp == chars[victim].hp - damage
  {
  }

  /** `characterMove` and `characterPlace` set only the named character's
      position, and log nothing. */
  lemma MoveSetsPosition(chars: map<int, CharEntry>, log: seq<LogEntry>, id: int, to: Pos)
    requires id in chars
    ensures var e := Apply(chars, log, CharacterMove(id, to));
      && !e.thrown && e.log == log && e.chars == chars[id := chars[id].(pos := to)]
      && e == Apply(chars, log, CharacterPlace(id, to))
  {
  }

  /** `setCharacter` stores the character under its own id, adding it when
      the id is new and replacing the entry otherwise; every other entry is
      kept, nothing is logged and nothing is thrown. */
  lemma SetCharacterStores(chars: map<int, CharEntry>, log: seq<LogEntry>, c: CharEntry)
    ensures var e := Apply(chars, log, SetCharacter(c));
      && !e.thrown && e.log == log
      && e.chars.Keys == chars.Keys + {c.id} && e.chars[c.id] == c
      && forall id :: id in chars && id != c.id ==> e.chars[id] == chars[id]
  {
  }

  /** An unknown action leaves the table and the log unchanged. */
  lemma UnknownIsIgnored(chars: map<int, CharEntry>, log: seq<LogEntry>, kind: string)
    requires |log| <= MaxLogSize
    ensures var e := Apply(chars, log, Other(kind));
      e.chars == chars && Trim(e.log) == log && !e.thrown
  {
  }

  /** After storing `cs`, an id belongs to the table exactly when it was
      there or is the id of one of `cs`; ids not in `cs` keep their entry, and
      an id in `cs` holds its last character. */
  lemma {:induction false} InsertAllLookup(m: map<int, CharEntry>, cs: seq<CharEntry>, k: int)
    ensures k in InsertAll(m, cs) <==> k in m || exists i :: 0 <= i < |cs| && cs[i].id == k
    ensures (forall i :: 0 <= i < |cs| ==> cs[i].id != k) && k in m ==> InsertAll(m, cs)[k] == m[k]
    ensures forall i :: 0 <= i < |cs| && cs[i].id == k && (forall j :: i < j < |cs| ==> cs[j].id != k) ==>
      InsertAll(m, cs)[k] == cs[i]
  {
    if |cs| > 0 {
      var n := |cs| - 1;
      InsertAllLookup(m, cs[..n], k);
      assert forall i :: 0 <= i < n ==> cs[..n][i] == cs[i];
    }
  }

  /** `newChars = newChars.concat(newChars, chars)` over the groups, in
      order: the list so far twice, then the group. */
  function Doubled(groups: seq<seq<CharEntry>>): seq<CharEntry>
  {
    if |groups| == 0 then []
    else
      var d := Doubled(groups[..|groups| - 1]);
      d + d + groups[|groups| - 1]
  }

  /** The groups one after the other. */
  function Concat(groups: seq<seq<CharEntry>>): seq<CharEntry>
  {
    if |groups| == 0 then [] else Concat(groups[..|groups| - 1]) + groups[|groups| - 1]
  }

  /** The flattening loop of `onCreatedNpcs` over the groups of the
      response, in order. */
  method FlattenNpcGroups(groups: seq<seq<CharEntry>>) returns (newChars: seq<CharEntry>)
    ensures newChars == Doubled(groups)
  {
    newChars := [];
    var i := 0;
    while i < |groups|
      invariant 0 <= i <= |groups|
      invariant newChars == Doubled(groups[..i])
    {
      assert groups[..i + 1][..i] == groups[..i];
      newChars := newChars + newChars + groups[i];
      i := i + 1;
    }
    assert groups[..i] == groups;
  }

  lemma {:induction false} InsertAllAppend(m: map<int, CharEntry>, xs: seq<CharEntry>, ys: seq<CharEntry>)
    ensures InsertAll(m, xs + ys) == InsertAll(InsertAll(m, xs), ys)
    decreases |ys|
  {
    if |ys| == 0 {
      assert xs + ys == xs;
    } else {
      var n := |ys| - 1;
      InsertAllAppend(m, xs, ys[..n]);
      assert (xs + ys)[..|xs + ys| - 1] == xs + ys[..n];
    }
  }

  /** Storing `v` under `k` before other characters is undone by storing it
      there again afterwards. */
  lemma {:induction false} InsertBeforeOverridden(m: map<int, CharEntry>, xs: seq<CharEntry>, k: int, v: CharEntry)
    ensures InsertAll(m[k := v], xs)[k := v] == InsertAll(m, xs)[k := v]
    decreases |xs|
  {
    if |xs| > 0 {
      var n := |xs| - 1;
      InsertBeforeOverridden(m, xs[..n], k, v);
      var a := InsertAll(m[k := v], xs[..n]);
      var b := InsertAll(m, xs[..n]);
      var y := xs[n];
      assert InsertAll(m[k := v], xs) == a[y.id := y];
      assert InsertAll(m, xs) == b[y.id := y];
      if y.id != k {
        assert a[y.id := y][k := v] == a[k := v][y.id := y];
        assert b[y.id := y][k := v] == b[k := v][y.id := y];
      } else {
        assert a[y.id := y][k := v] == a[k := v];
        assert b[y.id := y][k := v] == b[k := v];
      }
    }
  }

  /** Storing the same characters twice is storing them once. */
  lemma {:induction false} InsertAllTwice(m: map<int, CharEntry>, xs: seq<CharEntry>)
    ensures InsertAll(InsertAll(m, xs), xs) == InsertAll(m, xs)
    decreases |xs|
  {
    if |xs| > 0 {
      var n := |xs| - 1;
      var x := xs[n];
      InsertBeforeOverridden(InsertAll(m, xs[..n]), xs[..n], x.id, x);
      InsertAllTwice(m, xs[..n]);
    }
  }

  /** Although the flattening repeats earlier groups, dispatching it stores
      the same characters as the groups laid end to end. */
  lemma {:induction false} FlattenStoresUnion(m: map<int, CharEntry>, groups: seq<seq<CharEntry>>)
    ensures InsertAll(m, Doubled(groups)) == InsertAll(m, Concat(groups))
    decreases |groups|
  {
    if |groups| > 0 {
      var n := |groups| - 1;
      var d := Doubled(groups[..n]);
      var g := groups[n];
      FlattenStoresUnion(m, groups[..n]);
      InsertAllAppend(m, d + d, g);
      InsertAllAppend(m, d, d);
      InsertAllTwice(m, d);
      InsertAllAppend(m, Concat(groups[..n]), g);
    }
  }
}
