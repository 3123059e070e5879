/** A character-stats parameter (civilwar/utils/character_stats.py): the
    record itself and `api_validate`, which checks a dict's attributes in a
    fixed order and builds the record from them. */
module CharacterStatsParam {
  import opened Common
  import opened Api

  /** The attributes `api_validate` requires, in the order it checks them,
      which is also the order of the constructor's parameters. */
  const Attributes: seq<string> := ["curr_hp", "max_hp", "armor", "dice", "damage", "modifier"]

  class CharacterStats {
    var currHp: int
    var maxHp: int
    var dice: int
    var affectedWeapon: Option<string>
    var damage: int
    var modifier: int
    var armor: int

    constructor (currHp: int, maxHp: int, armor: int, dice: int, damage: int, modifier: int)
      ensures this.currHp == currHp && this.maxHp == maxHp && this.armor == armor
      ensures this.dice == dice && this.damage == damage && this.modifier == modifier
      ensures affectedWeapon == None
    {
      this.currHp := currHp;
      this.maxHp := maxHp;
      this.dice := dice;
      this.affectedWeapon := None;
      this.damage := damage;
      this.modifier := modifier;
      this.armor := armor;
    }
  }

  /** What reaches `api_validate`: an existing record or a decoded value. */
  datatype StatsParam = Instance(stats: CharacterStats) | Raw(value: Value)

  /** The three ways `api_validate` ends: a record, an error response, or
      the KeyError its wrong-type message raises. */
  datatype Validated = Accepted(stats: CharacterStats) | Rejected(response: Value) | RaisesKeyError

  /** How the attribute checks end: all values, or the position in the
      attribute list of the first missing or non-int attribute. */
  datatype AttrCheck = Args(values: seq<int>) | Missing(at: nat) | WrongType(at: nat)

  /** The attribute at position `i` is present and an int. */
  predicate PresentInt(es: seq<(string, Value)>, attrs: seq<string>, i: nat)
    requires i < |attrs|
  {
    Lookup(es, attrs[i]).Some? && IsInt(Lookup(es, attrs[i]).value)
  }

  /** The attribute checks of `api_validate`, in list order. */
  function CheckAttrs(es: seq<(string, Value)>, attrs: seq<string>): (r: AttrCheck)
    ensures r.Args? ==> |r.values| == |attrs|
    ensures r.Args? ==> forall i :: 0 <= i < |attrs| ==>
      PresentInt(es, attrs, i) && r.values[i] == AsInt(Lookup(es, attrs[i]).value)
    ensures r.Missing? ==> r.at < |attrs| && Lookup(es, attrs[r.at]).None?
    ensures r.WrongType? ==> r.at < |attrs| && Lookup(es, attrs[r.at]).Some? && !IsInt(Lookup(es, attrs[r.at]).value)
    ensures !r.Args? ==> forall j :: 0 <= j < r.at ==> PresentInt(es, attrs, j)
    ensures r.Args? <==> forall i :: 0 <= i < |attrs| ==> PresentInt(es, attrs, i)
    decreases |attrs|
  {
    if |attrs| == 0 then Args([])
    else
      var found := Lookup(es, attrs[0]);
      if found.None? then assert !PresentInt(es, attrs, 0); Missing(0)
      else if !IsInt(found.value) then assert !PresentInt(es, attrs, 0); WrongType(0)
      else
        var rest := CheckAttrs(es, attrs[1..]);
        assert forall j :: 0 <= j < |attrs| - 1 ==>
          attrs[1..][j] == attrs[j + 1] && (PresentInt(es, attrs[1..], j) <==> PresentInt(es, attrs, j + 1));
        match rest
        case Args(vs) => Args([AsInt(found.value)] + vs)
        case Missing(k) => Missing(k + 1)
        case WrongType(k) => WrongType(k + 1)
  }

  /** The checks still to run after `done` of them have passed. */
  function Continue(done: seq<int>, rest: AttrCheck): AttrCheck
  {
    match rest
    case Args(vs) => Args(done + vs)
    case Missing(k) => Missing(k + |done|)
    case WrongType(k) => WrongType(k + |done|)
  }

  function MissingMessage(attr: string): string
  {
    "CharacterStats dict missing required attribute: '" + attr + "'"
  }

  function WrongTypeMessage(attr: string, shown: Value): string
  {
    "CharacterStats attribute '" + attr + "' has wrong type, expected=int got=" + TypeName(shown)
  }

  lemma CheckAttrsUnfold(es: seq<(string, Value)>, attrs: seq<string>, i: nat)
    requires i < |attrs|
    ensures CheckAttrs(es, attrs[i..]) ==
      if Lookup(es, attrs[i]).None? then Missing(0)
      else if !IsInt(Lookup(es, attrs[i]).value) then WrongType(0)
      else Continue([AsInt(Lookup(es, attrs[i]).value)], CheckAttrs(es, attrs[i + 1..]))
  {
    assert attrs[i..][0] == attrs[i];
    assert attrs[i..][1..] == attrs[i + 1..];
  }

  lemma ContinueAppend(done: seq<int>, x: int, rest: AttrCheck)
    ensures Continue(done, Continue([x], rest)) == Continue(done + [x], rest)
  {
    if rest.Args? {
      assert done + ([x] + rest.values) == (done + [x]) + rest.values;
    }
  }

  /** The loop of `api_validate` over the attribute names: each value is
      appended to the constructor arguments until a check fails. */
  method CollectArgs(es: seq<(string, Value)>, attrs: seq<string>) returns (r: AttrCheck)
    ensures r == CheckAttrs(es, attrs)
  {
    var constructorArgs: seq<int> := [];
    var i := 0;
    while i < |attrs|
      invariant 0 <= i <= |attrs| && |constructorArgs| == i
      invariant CheckAttrs(es, attrs) == Continue(constructorArgs, CheckAttrs(es, attrs[i..]))
    {
      var found := Lookup(es, attrs[i]);
      CheckAttrsUnfold(es, attrs, i);
      if found.None? {
        return Missing(i);
      } else if !IsInt(found.value) {
        return WrongType(i);
      }
      ContinueAppend(constructorArgs, AsInt(found.value), CheckAttrs(es, attrs[i + 1..]));
      constructorArgs := constructorArgs + [AsInt(found.value)];
      i := i + 1;
    }
    assert CheckAttrs(es, attrs[i..]) == Args([]);
    return Args(constructorArgs);
  }

  /** `CharacterStats.api_validate(game_controller, value)`. The wrong-type
      message looks up the literal key 'attr', so it raises a KeyError unless
      the dict happens to hold that key. */
  method ApiValidate(value: StatsParam) returns (r: Validated)
    ensures value.Instance? ==> r == Accepted(value.stats)
    ensures value.Raw? && !value.value.VDict? ==>
      r == Rejected(CreateError("Invalid type, required: dict, got: " + TypeName(value.value)))
    ensures value.Raw? && value.value.VDict? ==>
      var es := value.value.entries;
      match CheckAttrs(es, Attributes)
      case Missing(k) => r == Rejected(CreateError(MissingMessage(Attributes[k])))
      case WrongType(k) =>
        r == (if Lookup(es, "attr").Some?
              then Rejected(CreateError(WrongTypeMessage(Attributes[k], Lookup(es, "attr").value)))
              else RaisesKeyError)
      case Args(vs) =>
        && r.Accepted? && fresh(r.stats) && r.stats.affectedWeapon == None
        && r.stats.currHp == vs[0] && r.stats.maxHp == vs[1] && r.stats.armor == vs[2]
        && r.stats.dice == vs[3] && r.stats.damage == vs[4] && r.stats.modifier == vs[5]
  {
    if value.Instance? {
      return Accepted(value.stats);
    }
    if !value.value.VDict? {
      return Rejected(CreateError("Invalid type, required: dict, got: " + TypeName(value.value)));
    }
    var es := value.value.entries;
    var checked := CollectArgs(es, Attributes);
    match checked
    case Missing(k) =>
      r := Rejected(CreateError(MissingMessage(Attributes[k])));
    case WrongType(k) =>
      var shown := Lookup(es, "attr");
      if shown.None? {
        r := RaisesKeyError;
      } else {
        r := Rejected(CreateError(WrongTypeMessage(Attributes[k], shown.value)));
      }
    case Args(a) =>
      var stats := new CharacterStats(a[0], a[1], a[2], a[3], a[4], a[5]);
      r := Accepted(stats);
  }

  /** The first attribute in check order that is missing is the one named. */
  lemma MissingIsFirstInOrder(es: seq<(string, Value)>)
    requires Lookup(es, "curr_hp").Some? && IsInt(Lookup(es, "curr_hp").value)
    requires Lookup(es, "max_hp").None? && Lookup(es, "armor").None?
    ensures CheckAttrs(es, Attributes) == Missing(1)
  {
    assert Attributes[1..][0] == "max_hp";
  }
}
