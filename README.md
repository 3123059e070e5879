# PnPCivilWars combat core in Dafny

PnPCivilWars is a multiplayer tabletop battle map: a Python server keeps
the characters, their weapons and the turn order, and a React client shows
the map and an event log. This project models the parts of it that hold
game logic:

- the turn scheduler (`GameTurnOrder`): a template queue, a working queue
  refilled from it once per round, and removal from both;
- attack resolution (`Weapon.attack`) and the health update
  (`Character.change_health`), with the d20 roll, the damage dice and the
  distance to the target as inputs;
- the helpers `clamp`, the case-insensitive dictionary, the exact-arithmetic
  part of `Vector2D`, and the JSON response envelope with its serializer;
- the request validators of `Position` and `CharacterStats`;
- target selection for areas and lines, and ally creation, in
  `GameController`;
- the battle map's event reducer and the flattening of created NPC groups;
- the description of WebSocket close codes (section 7.4.1 of RFC 6455).

There is one module per source file. Code that changes state in place is a
class whose methods are proved against a pure function of the old state
(`GameTurnOrder.GetNext` against `Next`, `Weapon.Attack` against `Resolve`,
`Reduce` against `Apply`); the properties of the game are lemmas about those
functions. Python's dynamically typed values are the datatype `Api.Value`;
a dict is a sequence of entries in insertion order. Python exceptions
(KeyError, IndexError, ZeroDivisionError) and the JavaScript TypeError are
explicit results.

Where the code and the design description disagree, the model follows the
code:

- `change_health` never clamps health at -max and never marks a character
  dead. A change that would reach -2 times the maximum is ignored, so health
  stays above -2 times the maximum, not within [-max, max].
- `reset()` sets the round to 1, so the first `get_next()` after a reset
  reports round 2. A new scheduler starts at round 0 and reports round 1.
- `Weapon.attack` returns nothing; its effects are the usages and the
  target's health.

## Model

| member | source | states |
|---|---|---|
| Common.NatToString | civilwar/gamecontroller.py:42 | `str(n)` of a count: a non-empty run of decimal digits with no leading zero |
| Common.NatToStringRoundTrip | civilwar/gamecontroller.py:42 | reading the rendered digits back gives the number, so distinct counts give distinct suffixes |
| Common.IntToString | webapp/src/views/battlemap.js:65 | a number interpolated into a message starts with '-' exactly when it is negative |
| Api.TypeName | civilwar/utils/position.py:16 | `type(v)` renders as the class name wrapped in `<class '` and `'>`: `<class 'int'>`, `<class 'float'>`, `<class 'bool'>`, `<class 'str'>`, `<class 'NoneType'>` and `<class 'dict'>` for the built-in scalars and dicts |
| Api.Lookup | civilwar/utils/character_stats.py:32-34 | `d[key]` is absent exactly when the key is not among the dict's keys, and otherwise is a value stored under that key |
| Api.Serialized | civilwar/utils/api.py:11-23 | serializing keeps a dict's keys in order and a list's length; a value that is neither dict, list nor JsonSerializable comes back unchanged |
| Api.JsonSerialize | civilwar/utils/api.py:11-23 | the copy-and-overwrite loops return exactly the serialization of the input |
| Api.SettledIsFixed | civilwar/utils/api.py:11-23 | a value with no JsonSerializable inside dicts and lists serializes to itself |
| Api.SerializeSettles | civilwar/utils/api.py:11-23 | when every `to_json()` result is plain data, serializing twice gives the same as serializing once |
| Api.CreateResponse | civilwar/utils/api.py:26-28 | the response has exactly the keys success, msg, data; a None payload becomes `{}` and any other payload is serialized |
| Api.CreateError | civilwar/utils/api.py:31-32 | `create_error(msg)` is `{"success": False, "msg": msg, "data": {}}` |
| Api.ErrorMessageIsKept | civilwar/utils/api.py:31-32 | an error response carries its message and is marked unsuccessful |
| Util.Clamp | civilwar/utils/util.py:2-3 | the value when within bounds, otherwise the violated bound, and the lower bound whenever the bounds are crossed |
| Util.ClampIdempotent | civilwar/utils/util.py:2-3 | clamping a clamped value changes nothing |
| Util.Lower | civilwar/utils/util.py:21 | `k.lower()` keeps the length and lower-cases each letter |
| Util.LowerIdempotent | civilwar/utils/util.py:21 | lower-casing twice is lower-casing once |
| Util.Contains | civilwar/utils/util.py:20-21 | when `k in d` holds and the proxy points at stored keys, some stored key lower-cases like `k` |
| Util.GetItem | civilwar/utils/util.py:28-30 | `d[k]` finds a value only when `k in d`, and always does so when the proxy points at stored keys |
| Util.Get | civilwar/utils/util.py:32-33 | `get(k, default)` returns the default exactly when `k in d` is false, and `d[k]` otherwise |
| Util.DelItem | civilwar/utils/util.py:23-26 | a successful `del d[k]` needed `k in d`, leaves `k` absent in every spelling, removes stored keys without adding any, and leaves every key of another lower-case form present or absent as before and, when the proxy points at stored keys, with the same value |
| Util.SetItem | civilwar/utils/util.py:35-37 | `d[k] = v` keeps every proxy entry pointing at a stored key that lower-cases to it |
| Util.SetThenGetAnyCase | civilwar/utils/util.py:28-37 | after `d[k] = v`, every key that lower-cases like `k` is contained and finds `v` |
| Util.DeleteRemoves | civilwar/utils/util.py:23-26 | `del d[k]` raises exactly when `k in d` is false; otherwise `k` is gone in every spelling and the proxy invariant holds |
| Util.ResetInOtherCase | civilwar/utils/util.py:35-37 | setting a key again in another case leaves both spellings in the underlying dict, and the proxy and lookups follow the later one |
| Util.FooThenFOO | civilwar/utils/util.py:35-37 | setting "Foo" then "FOO" keeps both keys, points "foo" at "FOO" and every spelling finds the later value |
| Util.SetAllLookup | civilwar/utils/util.py:15-16 | setting pairs in order, a lookup finds the value of the last pair whose key matches case-insensitively, or the earlier value |
| Util.Zip | civilwar/utils/util.py:42 | `zip` pairs labels and data up to the shorter length |
| Util.BuildLookup | civilwar/utils/util.py:39-44 | `build` finds, for each key, the datum of the last label equal to it up to case, and nothing for other keys |
| Util.PrebuiltProxyIsRedundant | civilwar/utils/util.py:13-16 | the proxy `__init__` builds before its loop is overwritten with the same entries, so the result equals setting each item into an empty dict |
| Util.CaseInsensitiveDict.constructor | civilwar/utils/util.py:17-18 | a dict built without data is empty and well formed |
| Util.CaseInsensitiveDict.FromItems | civilwar/utils/util.py:11-16 | a dict built from items holds what setting each item in order gives, and is well formed |
| Util.CaseInsensitiveDict.ContainsKey | civilwar/utils/util.py:20-21 | `k in d` holds exactly when `k.lower()` is a proxy key |
| Util.CaseInsensitiveDict.GetValue | civilwar/utils/util.py:28-30 | `d[k]` returns the proxied key's value, and raises KeyError exactly when `k in d` is false |
| Util.CaseInsensitiveDict.GetOr | civilwar/utils/util.py:32-33 | `d.get(k, default)` agrees with `Get` |
| Util.CaseInsensitiveDict.SetValue | civilwar/utils/util.py:35-37 | `d[k] = v` stores under `k` as written, points the proxy at it and keeps the dict well formed |
| Util.CaseInsensitiveDict.Delete | civilwar/utils/util.py:23-26 | `del d[k]` succeeds exactly when `k in d`, removes the proxied key and the proxy entry, and changes nothing when it raises |
| Util.CaseInsensitiveDict.Build | civilwar/utils/util.py:39-44 | `build(labels, data)` returns a new well-formed dict holding the zipped pairs set in order |
| Vec2.Add | civilwar/utils/vec2.py:11-12 | `v + w` is undone by subtracting `w` |
| Vec2.Sub | civilwar/utils/vec2.py:14-15 | `v - w` is undone by adding `w` |
| Vec2.Mul | civilwar/utils/vec2.py:17-18 | `v * a` is parallel to `v`, and dividing it by a non-zero `a` gives `v` back |
| Vec2.Cross | civilwar/utils/vec2.py:47-48 | `cross_multiply` is zero for a vector with itself and changes sign when the operands are swapped |
| Vec2.Div | civilwar/utils/vec2.py:20-21 | `v / a` raises exactly when `a` is zero; otherwise multiplying the result by `a` gives `v` back |
| Vec2.Get | civilwar/utils/vec2.py:32-37 | `v[0]` is x, `v[1]` is y, any other index raises IndexError |
| Vec2.Normalize | civilwar/utils/vec2.py:26-30 | the zero vector exactly for the zero vector; otherwise the result scaled by the length is the input |
| Vec2.NormalizeKeepsDirection | civilwar/utils/vec2.py:26-30 | `normalize()` returns a vector parallel to the original: their cross product is zero |
| Vec2.ScaledIsParallel | civilwar/utils/vec2.py:17-18 | a vector and any multiple `v * a` of it have cross product zero |
| Vec2.ToJson | civilwar/utils/vec2.py:50-51 | `to_json()` is a dict with keys x and y holding the stored components |
| Vec2.SerializeVector | civilwar/utils/vec2.py:50-51 | serializing a vector, once or twice, yields exactly its `to_json()` dict |
| Vec2.AddThenSub | civilwar/utils/vec2.py:11-15 | `(v + w) - w == v` and `(v - w) + w == v` |
| Vec2.CrossScales | civilwar/utils/vec2.py:47-48 | scaling an operand by `a` scales the cross product by `a` |
| Vec2.IndexRoundTrip | civilwar/utils/vec2.py:32-37 | indexing 0 and 1 recovers the vector |
| PositionParam.ApiValidate | civilwar/utils/position.py:11-22 | no response exactly for a list or tuple of two numbers; any other value gets an error response carrying its message |
| PositionParam.FirstNonNumber | civilwar/utils/position.py:20-22 | the first component that is not an int or float, with every component before it a number; none when all are numbers |
| PositionParam.ListIsCheckedAsTuple | civilwar/utils/position.py:12-13 | a list validates exactly as the tuple of its items |
| PositionParam.RejectsOtherTypes | civilwar/utils/position.py:15-16 | a value that is neither list nor tuple gets the invalid-type error naming its type |
| PositionParam.RejectsWrongSize | civilwar/utils/position.py:17-18 | a sequence whose length is not 2 gets the size error naming its length |
| PositionParam.RejectsFirstComponent | civilwar/utils/position.py:20-22 | a pair whose first component is not a number is reported at index 0 |
| PositionParam.RejectsSecondComponent | civilwar/utils/position.py:20-22 | a pair with a number first and a non-number second is reported at index 1 |
| PositionParam.ErrorsAreFailures | civilwar/utils/position.py:15-22 | every response the validator returns is marked unsuccessful |
| CharacterStatsParam.CharacterStats.constructor | civilwar/utils/character_stats.py:7-16 | each field takes the same-named argument and no weapon is affected |
| CharacterStatsParam.CheckAttrs | civilwar/utils/character_stats.py:29-37 | the checks in list order: all values when every attribute is a present int, else the first missing or non-int attribute, with all before it present ints |
| CharacterStatsParam.CollectArgs | civilwar/utils/character_stats.py:29-37 | the appending loop ends exactly as `CheckAttrs` says |
| CharacterStatsParam.ApiValidate | civilwar/utils/character_stats.py:22-39 | an instance comes back as is; a non-dict gets the invalid-type error; the first missing attribute is named; a non-int attribute raises KeyError unless the dict has the key 'attr'; otherwise a new record whose fields are the dict's values in constructor order |
| CharacterStatsParam.MissingIsFirstInOrder | civilwar/utils/character_stats.py:30-33 | with curr_hp present and both max_hp and armor missing, max_hp is the one reported |
| Characters.HealthAfter | civilwar/utils/characters/character.py:31-38 | healing past the maximum caps at the maximum; a change reaching -2 times the maximum is ignored; any other change is applied exactly |
| Characters.HealthAfterKeepsRange | civilwar/utils/characters/character.py:31-38 | a health above -2 times the maximum and at most the maximum stays so after any change |
| Characters.NoClampAtMinusMax | civilwar/utils/characters/character.py:36-38 | damage can take health below -max |
| Characters.LethalBlowIgnored | civilwar/utils/characters/character.py:36-37 | a blow that would reach -2 times the maximum leaves health unchanged |
| Characters.Character.constructor | civilwar/utils/characters/character.py:6-13 | a new character is at full health, with the configuration's armor, movement, perception and weapons |
| Characters.Character.ChangeHealth | civilwar/utils/characters/character.py:31-38 | only the current life changes, to `HealthAfter`, and the health range is kept |
| Weapons.Damage | civilwar/utils/weapon.py:36-40 | resisted damage is the raw damage halved and floored; unresisted damage from rolls in range lies between additional + dice count and additional + dice count * faces |
| Weapons.UsagesAfter | civilwar/utils/weapon.py:26-30 | unlimited (negative) usages never change; counted usages never go negative or grow, and drop by one exactly when positive and the attack got past both gates |
| Weapons.Resolve | civilwar/utils/weapon.py:21-43 | out of range exactly when the distance is outside [min, max]; out of ammo exactly when in range with 0 usages; a hit exactly when past both gates with d20 + hit bonus at least the armor |
| Weapons.Weapon.constructor | civilwar/utils/weapon.py:7-16 | missing keys default to additional 0, min range 0, max range 1.5 and usages -1 |
| Weapons.Weapon.Attack | civilwar/utils/weapon.py:21-43 | the usages become `UsagesAfter` of the outcome, and the target's health changes once, by the negated damage, on a hit only |
| Weapons.SumBounds | civilwar/utils/weapon.py:36-38 | the rolls of `n` dice with `s` faces add up to between `n` and `n * s` |
| Weapons.UnresistedDamageBounds | civilwar/utils/weapon.py:36-38 | unresisted damage lies between additional + dices and additional + dices * diceType |
| Weapons.RangeBoundsInclusive | civilwar/utils/weapon.py:22-25 | a target exactly at the minimum or the maximum range is in range |
| Weapons.TieHits | civilwar/utils/weapon.py:31-35 | a to-hit total equal to the armor hits |
| Weapons.UsagesAccounting | civilwar/utils/weapon.py:26-30 | positive usages drop by one on every attempt past the range gate, hit or miss; -1 stays -1; a stopped attack uses nothing |
| Weapons.TwoUsagesThenEmpty | civilwar/utils/weapon.py:26-30 | a weapon with two usages attacks twice in range and then reports no ammo |
| TurnOrder.Next | civilwar/utils/turn_order.py:24-35 | the front of the working queue becomes active; an empty working queue is refilled from the template and the round rises by one; with both empty nobody is active |
| TurnOrder.RemoveFirst | civilwar/utils/turn_order.py:45-47 | `list.remove(x)` drops exactly the first occurrence, keeping the rest in order |
| TurnOrder.Removed | civilwar/utils/turn_order.py:43-47 | only a character in the template is removed, from the template and from the working queue if waiting there; the active character and round stay |
| TurnOrder.NextKeepsQueueInTemplate | civilwar/utils/turn_order.py:24-35 | everyone in the working queue stays in the template across `get_next` |
| TurnOrder.RemovedKeepsQueueInTemplate | civilwar/utils/turn_order.py:43-47 | the same invariant holds across `remove` |
| TurnOrder.AddKeepsQueueInTemplate | civilwar/utils/turn_order.py:12-16 | the same invariant holds across `add` and `add_all` |
| TurnOrder.DrainQueue | civilwar/utils/turn_order.py:32-33 | `k` calls on a working queue of at least `k` return its first `k` members in order within the same round |
| TurnOrder.OneRound | civilwar/utils/turn_order.py:25-33 | from an empty working queue, one call per template member returns the template in order, raises the round by one and empties the queue again |
| TurnOrder.RoundsCycle | civilwar/utils/turn_order.py:24-35 | `m` rounds return the template `m` times over in order (A, B, C, A, B, C, ...) and raise the round by `m` |
| TurnOrder.ResetThenNext | civilwar/utils/turn_order.py:18-29 | after a reset and adding characters, the first call returns the first character in round 2 |
| TurnOrder.RemoveKeepsOrder | civilwar/utils/turn_order.py:45-47 | a removal keeps the relative order of the remaining characters |
| TurnOrder.GameTurnOrder.constructor | civilwar/utils/turn_order.py:6-10 | a new scheduler has empty queues, nobody active and round 0 |
| TurnOrder.GameTurnOrder.Add | civilwar/utils/turn_order.py:12-13 | appends to the template only |
| TurnOrder.GameTurnOrder.AddAll | civilwar/utils/turn_order.py:15-16 | appends all, in order, to the template only |
| TurnOrder.GameTurnOrder.Reset | civilwar/utils/turn_order.py:18-22 | empties both queues, clears the active character and sets the round to 1 |
| TurnOrder.GameTurnOrder.GetNext | civilwar/utils/turn_order.py:24-35 | the new state is `Next` of the old one and the result is the new active character |
| TurnOrder.GameTurnOrder.GetActive | civilwar/utils/turn_order.py:37-38 | returns the active character |
| TurnOrder.GameTurnOrder.GetRound | civilwar/utils/turn_order.py:40-41 | returns the round |
| TurnOrder.GameTurnOrder.Remove | civilwar/utils/turn_order.py:43-47 | the new state is `Removed` of the old one |
| GameControl.AoeSelectIsFilter | civilwar/gamecontroller.py:53-62 | the area selection is a subsequence of the characters in list order and holds exactly those passing the area test |
| GameControl.AreaTest | civilwar/gamecontroller.py:58-61 | only the offset (1, 1) is skipped; any other character is in the area exactly when dx² + dy² is at most the unsquared radius |
| GameControl.AxisReach | civilwar/gamecontroller.py:60-61 | because the radius is not squared, a character `d` cells along an axis is in an area of radius `d` only when `d` is at most 1 |
| GameControl.LineSelectIsFilter | civilwar/gamecontroller.py:82-93 | with piercing, the result is a subsequence of the characters in list order and holds exactly those on the line |
| GameControl.NearestIsFirstClosest | civilwar/gamecontroller.py:94-103 | without piercing, nothing is picked exactly when nobody is on the line; otherwise a character on the line strictly nearer than every earlier one and no farther than every later one |
| GameControl.VeteransEveryFifth | civilwar/gamecontroller.py:35-38 | when the two configurations differ, `(n + 4) / 5` of the first `n` allies are built from the veteran configuration `AllyConfig` picks, as `CreateAllies` uses it |
| GameControl.AlliesAdded | civilwar/gamecontroller.py:35 | `range(amount)` runs `amount` times when positive and not at all otherwise |
| GameControl.AlliesAddedAsWritten | civilwar/gamecontroller.py:35-44 | as written, any positive amount raises a TypeError when `NPC(data, name, )` instantiates the abstract class, before an ally is appended; otherwise nothing is added |
| GameControl.CreateAlliesRaises | civilwar/gamecontroller.py:35-44 | for every positive amount the call as written raises where it is meant to add `amount` allies |
| GameControl.GameController.constructor | civilwar/gamecontroller.py:10-17 | the reference resolution 1000 x 683, the pixel size 152.5 / 434 and four empty character lists |
| GameControl.GameController.GetCharactersAoe | civilwar/gamecontroller.py:53-62 | the loop returns `AoeSelect` of the character list |
| GameControl.GameController.GetCharactersLine | civilwar/gamecontroller.py:79-104 | with piercing the loop returns `LineSelect`; without, the character `Nearest` picks, if any |
| GameControl.GameController.CreateAllies | civilwar/gamecontroller.py:32-44 | as intended: appends `AlliesAdded(amount)` new allies and keeps the old ones; iteration `i` uses the veteran configuration when `i % 5 == 0`, and the name ends in the ally count before it; each new ally is fresh and holds every stat of its configuration (life at full, armor, movement, perception, weapons), at position (0, 0) with no resistances |
| BattleMap.InsertAll | webapp/src/views/battlemap.js:49-53 | storing characters keeps every id already in the table and adds every stored id |
| BattleMap.Apply | webapp/src/views/battlemap.js:34-73 | the switch throws exactly for an action naming a missing character, logs nothing when it throws, and never drops a character from the table |
| BattleMap.Trim | webapp/src/views/battlemap.js:75-77 | the trimmed log has at most 250 entries and is the most recent part of the log, in order |
| BattleMap.StoreAll | webapp/src/views/battlemap.js:49-53 | the `addCharacters` loop stores each character under its id, in order |
| BattleMap.ApplyInPlace | webapp/src/views/battlemap.js:34-72 | the switch leaves the shared table and log as `Apply` says and throws exactly when `Apply` does |
| BattleMap.Reduce | webapp/src/views/battlemap.js:31-81 | the shared table and log are updated even when the reducer throws; the new state keeps them, except for a `setAllCharacters` table and a fresh log of the last 250 entries when longer |
| BattleMap.AtMostOneEntry | webapp/src/views/battlemap.js:34-72 | any action appends at most one log entry and never alters earlier ones |
| BattleMap.LogStaysBounded | webapp/src/views/battlemap.js:75-77 | after any action the visible log has at most 250 entries, the most recent ones in order |
| BattleMap.DiedMarksDead | webapp/src/views/battlemap.js:54-61 | `characterDied` sets only that character's status to "dead" and appends one red entry naming it |
| BattleMap.AttackLowersVictim | webapp/src/views/battlemap.js:62-70 | `characterAttack` lowers only the victim's hp by the damage and appends one white entry |
| BattleMap.AttackWithoutAttacker | webapp/src/views/battlemap.js:62-70 | with the attacker missing, the victim's hp is lowered before the TypeError and nothing is logged |
| BattleMap.SetCharacterStores | webapp/src/views/battlemap.js:35-37 | `setCharacter` stores the character under its id, adding or replacing that entry, keeps every other entry, logs nothing and does not throw |
| BattleMap.MoveSetsPosition | webapp/src/views/battlemap.js:38-40 | `characterMove` and `characterPlace` set only the named character's position and log nothing |
| BattleMap.UnknownIsIgnored | webapp/src/views/battlemap.js:71-72 | an unknown action leaves the table and the log unchanged |
| BattleMap.InsertAllLookup | webapp/src/views/battlemap.js:49-53 | after storing characters, an id is present exactly when it was or some character has it; other ids keep their entry; an id holds its last character |
| BattleMap.FlattenNpcGroups | webapp/src/views/battlemap.js:153-157 | the flattening loop yields, for each group, the list so far twice and then the group |
| BattleMap.FlattenStoresUnion | webapp/src/views/battlemap.js:151-158 | despite the repetitions, dispatching the flattened list stores the same table as the groups laid end to end |
| WebApi.Description | webapp/src/api.js:19-33 | each listed close code has a non-empty description |
| WebApi.GetErrorMessage | webapp/src/api.js:18-36 | never empty; the table's description for a listed code; "Unknown reason" for any other |
| WebApi.ListedCodesAreDescribed | webapp/src/api.js:19-35 | each of 1000 to 1011 and 1015 gets its own description, never the fallback |
| WebApi.UnlistedCodesAreUnknown | webapp/src/api.js:35 | 1012 to 1014 and every code outside 1000 to 1015 get "Unknown reason" |

## Left out

- The Flask and Socket.IO handlers of civilwar/app.py, `broadcast_response` and the decorators `has_character`, `has_role` and `param` of civilwar/utils/api.py: they are network and session I/O.
- `create_pc`: it reads a file and calls `str.tolower`, which does not exist.
- GameControl.GameController.CreateAllies: the two configuration files are parameters. `NPC` does not implement the abstract `get_armor`, `get_resistances` and `calc_distance` of `Character`, so as written `NPC(data, name, )` raises a TypeError on the first iteration (see Findings); the call also passes two of the four arguments `NPC.__init__` takes, and `NPC.__init__` passes three to `Character.__init__`, which takes one. The method builds the ally the call evidently intends, which also needs those abstract methods implemented: at position (0, 0), with no resistances.
- The pixel scaling, rounding and `r // self._og_meter` of both selections: the scaled start position and the radius are whole-number inputs.
- GameControl.GameController.GetCharactersLine: `math.hypot(dx**2, dy**2)` is compared exactly, by its square dx⁴ + dy⁴, so floating-point rounding is not modelled. The dest-shrinking loop before the selection is left out: its result is never used, and it need not terminate.
- Vec2.Normalize: `length()` needs a square root, so the length is an input known to be zero only for the zero vector. Components are exact reals, not floats. `__add__` and `__sub__` also accept any indexable second operand; the model takes a vector.
- `__repr__`, `to_pos` and `CharacterStats.to_json`: they format or build other objects and hold no logic.
- GameControl.AreaTest: character positions are whole pixel coordinates. The skip test `0 < x_dist < 2 and 0 < y_dist < 2` also skips fractional offsets such as (0.5, 1.5); the model has none, so only the offset (1, 1) is skipped.
- BattleMap.Apply: hp, damage, hit and timestamps are JavaScript numbers, which are doubles; the model uses unbounded integers, so the loss of precision above 2^53 is not modelled.
- Common.IntToString: renders plain decimal digits for every integer; a JavaScript template literal renders magnitudes of 1e21 and more in exponent form, which is not modelled.
- Util.Clamp: takes whole numbers. `clamp` works on any ordered values, floats included; nothing in the modelled code calls it.
- Random numbers: the d20 roll and the damage dice are inputs in their ranges. The `print` and `console.log` calls are left out.
- Weapons.Weapon.Attack: a weapon whose die has fewer than one face makes `randint` raise on a hit; the model requires rolls in range, so it cannot be called for such a weapon with dice to roll.
- The abstract `calc_distance`, `get_armor`, `get_resistances` and `get_name`, and `get_pos`, which both selections call but no class declares: the distance is an input, and the character carries its armor, resistances, name and position as fields. civilwar/utils/characters/player_character.py and npc.py only add a name; their constructors pass arguments that `Character.__init__` does not accept.
- civilwar/utils/spell.py is not part of this model: it fails on every path past its usage check. civilwar/utils/json_serializable.py is an interface only.
- Util.Lower: only ASCII letters are lower-cased; Python's full Unicode case mapping is not modelled.
- BattleMap.Reduce: character records are values keyed by integer ids. The sharing of a record object between the action and the table is not captured, nor that JavaScript object keys are strings.
- TurnOrder.GameTurnOrder: characters are compared with the type parameter's equality, standing for Python's identity comparison.
- The React components, `translatePosition`, `onTokenDrag`, the socket methods of webapp/src/api.js and the proxy configuration: they are UI and transport.

## Findings

| source | as written | input that shows it | evidently intended | confidence | as-written member | corrected member |
|---|---|---|---|---|---|---|
| civilwar/gamecontroller.py:43 | `NPC(data, name, )` instantiates `NPC`, which leaves the abstract `get_armor`, `get_resistances` and `calc_distance` of `Character` (civilwar/utils/characters/character.py:19-29) unimplemented, so the loop raises a TypeError before appending any ally; the arguments do not match `NPC.__init__` (civilwar/utils/characters/npc.py:9) either | `create_allies()` with the default amount 20, or any amount above 0 | one NPC per iteration, of a class implementing those methods, built from the configuration and the name and appended to the allies | not executed | GameControl.AlliesAddedAsWritten | GameControl.GameController.CreateAllies |
