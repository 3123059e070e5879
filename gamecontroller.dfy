/** Target selection and ally creation of the game controller
    (civilwar/gamecontroller.py). The start position is taken already scaled
    to the map's pixel grid, and the radius already divided by the pixel size
    and floored, as whole numbers. */
module GameControl {
  import opened Common
  import opened Characters

  /** Offsets of exactly (1, 1) from the start are skipped by both selections:
      `0 < dx < 2 and 0 < dy < 2` holds for no other whole offsets. */
  predicate Skipped(dx: int, dy: int)
  {
    0 < dx < 2 && 0 < dy < 2
  }

  /** The area test: the squared offset against the unsquared radius. */
  predicate InArea(dx: int, dy: int, pixelDist: int)
  {
    !Skipped(dx, dy) && dx * dx + dy * dy <= pixelDist
  }

  /** The square of `hypot(dx**2, dy**2)`, which the line selection compares:
      the fourth powers of the offsets, added. */
  function HypotSquared(dx: int, dy: int): (h: int)
    ensures h >= 0
  {
    dx * dx * dx * dx + dy * dy * dy * dy
  }

  /** `char_dist > dist`: the hypotenuse is never negative, so every target is
      too far for a negative distance; otherwise compare the squares. */
  predicate TooFar(h: int, dist: int)
  {
    dist < 0 || h > dist * dist
  }

  /** The line test for an offset from the start: not skipped, a cross product
      with the start position of at most 3, and not too far. */
  predicate OnLine(dx: int, dy: int, startX: int, startY: int, dist: int)
  {
    !Skipped(dx, dy) && dx * startY - dy * startX <= 3 && !TooFar(HypotSquared(dx, dy), dist)
  }

  /** The characters of `cs` in the area, in list order. */
  function AoeSelect(cs: seq<Character>, startX: int, startY: int, pixelDist: int): seq<Character>
    reads cs
  {
    if |cs| == 0 then []
    else
      var c := cs[|cs| - 1];
      AoeSelect(cs[..|cs| - 1], startX, startY, pixelDist) +
        (if InArea(c.posX - startX, c.posY - startY, pixelDist) then [c] else [])
  }

  predicate OnLineAt(cs: seq<Character>, i: int, startX: int, startY: int, dist: int)
    requires 0 <= i < |cs|
    reads cs
  {
    OnLine(cs[i].posX - startX, cs[i].posY - startY, startX, startY, dist)
  }

  function HypotAt(cs: seq<Character>, i: int, startX: int, startY: int): int
    requires 0 <= i < |cs|
    reads cs
  {
    HypotSquared(cs[i].posX - startX, cs[i].posY - startY)
  }

  /** The characters of `cs` on the line, in list order (the piercing case). */
  function LineSelect(cs: seq<Character>, startX: int, startY: int, dist: int): seq<Character>
    reads cs
  {
    if |cs| == 0 then []
    else
      LineSelect(cs[..|cs| - 1], startX, startY, dist) +
        (if OnLineAt(cs, |cs| - 1, startX, startY, dist) then [cs[|cs| - 1]] else [])
  }

  /** The index of the character the non-piercing line picks: the first one
      on the line, replaced only by a strictly nearer one. */
  function Nearest(cs: seq<Character>, startX: int, startY: int, dist: int): (r: Option<nat>)
    reads cs
    ensures r.Some? ==> r.value < |cs|
  {
    if |cs| == 0 then None
    else
      var n := |cs| - 1;
      var prev := Nearest(cs[..n], startX, startY, dist);
      if !OnLineAt(cs, n, startX, startY, dist) then prev
      else if prev.None? then Some(n)
      else if HypotAt(cs[..n], prev.value, startX, startY) > HypotAt(cs, n, startX, startY) then Some(n)
      else prev
  }

  /** `f` maps each position of `s` to a position of `t` holding the same
      element, in increasing order. */
  ghost predicate Embeds<T>(s: seq<T>, t: seq<T>, f: seq<nat>)
  {
    |f| == |s| && (forall i :: 0 <= i < |f| ==> f[i] < |t| && s[i] == t[f[i]])
    && (forall i, j :: 0 <= i < j < |f| ==> f[i] < f[j])
  }

  /** `s` occurs in `t` with its order kept. */
  ghost predicate SubsequenceOf<T>(s: seq<T>, t: seq<T>)
  {
    exists f: seq<nat> :: Embeds(s, t, f)
  }

  lemma SubsequenceExtend<T>(s: seq<T>, t: seq<T>, x: T, keep: bool)
    requires SubsequenceOf(s, t)
    ensures SubsequenceOf(s + (if keep then [x] else []), t + [x])
  {
    var f: seq<nat> :| Embeds(s, t, f);
    var t' := t + [x];
    if keep {
      var f' := f + [|t|];
      var s' := s + [x];
      forall i | 0 <= i < |f'| ensures f'[i] < |t'| && s'[i] == t'[f'[i]] {
        if i < |f| {
          assert t'[f[i]] == t[f[i]];
        }
      }
      assert Embeds(s', t', f');
    } else {
      forall i | 0 <= i < |f| ensures f[i] < |t'| && s[i] == t'[f[i]] {
        assert t'[f[i]] == t[f[i]];
      }
      assert s + [] == s;
      assert Embeds(s, t', f);
    }
  }

  /** The area selection keeps list order, and holds exactly the characters
      whose offset passes the area test. */
  lemma {:induction false} AoeSelectIsFilter(cs: seq<Character>, startX: int, startY: int, pixelDist: int)
    ensures SubsequenceOf(AoeSelect(cs, startX, startY, pixelDist), cs)
    ensures forall c :: c in AoeSelect(cs, startX, startY, pixelDist) <==>
      c in cs && InArea(c.posX - startX, c.posY - startY, pixelDist)
  {
    if |cs| == 0 {
      var f: seq<nat> := [];
      assert Embeds([], cs, f);
    } else {
      var n := |cs| - 1;
      AoeSelectIsFilter(cs[..n], startX, startY, pixelDist);
      var c := cs[n];
      SubsequenceExtend(AoeSelect(cs[..n], startX, startY, pixelDist), cs[..n], c,
                        InArea(c.posX - startX, c.posY - startY, pixelDist));
      assert cs[..n] + [c] == cs;
    }
  }

  /** Only the offset (1, 1) is skipped; every other offset, the start itself
      included, is in the area exactly when its squared length is at most the
      radius, which is not squared. */
  lemma AreaTest(dx: int, dy: int, pixelDist: int)
    ensures Skipped(dx, dy) <==> dx == 1 && dy == 1
    ensures !(dx == 1 && dy == 1) ==> (InArea(dx, dy, pixelDist) <==> dx * dx + dy * dy <= pixelDist)
  {
  }

  /** Because the radius is not squared, a character at distance `d` along an
      axis is in an area of radius `d` only when `d` is at most 1. */
  lemma AxisReach(d: int)
    requires d >= 0
    ensures InArea(d, 0, d) <==> d <= 1
  {
    if d > 1 {
      assert d * d > d * 1;
    }
  }

  /** The piercing line keeps list order and holds exactly the characters on
      the line. */
  lemma {:induction false} LineSelectIsFilter(cs: seq<Character>, startX: int, startY: int, dist: int)
    ensures SubsequenceOf(LineSelect(cs, startX, startY, dist), cs)
    ensures forall c :: c in LineSelect(cs, startX, startY, dist) <==>
      c in cs && OnLine(c.posX - startX, c.posY - startY, startX, startY, dist)
  {
    if |cs| == 0 {
      var f: seq<nat> := [];
      assert Embeds([], cs, f);
    } else {
      var n := |cs| - 1;
      LineSelectIsFilter(cs[..n], startX, startY, dist);
      SubsequenceExtend(LineSelect(cs[..n], startX, startY, dist), cs[..n], cs[n],
                        OnLineAt(cs, n, startX, startY, dist));
      assert cs[..n] + [cs[n]] == cs;
    }
  }

  /** The non-piercing line picks nothing exactly when nobody is on the line,
      and otherwise the nearest character on it, the earliest in list order
      among the nearest. */
  lemma {:induction false} NearestIsFirstClosest(cs: seq<Character>, startX: int, startY: int, dist: int)
    ensures var r := Nearest(cs, startX, startY, dist);
      && (r.None? <==> forall j :: 0 <= j < |cs| ==> !OnLineAt(cs, j, startX, startY, dist))
      && (r.Some? ==> OnLineAt(cs, r.value, startX, startY, dist))
      && (r.Some? ==> forall j :: 0 <= j < r.value && OnLineAt(cs, j, startX, startY, dist) ==>
            HypotAt(cs, j, startX, startY) > HypotAt(cs, r.value, startX, startY))
      && (r.Some? ==> forall j :: r.value < j < |cs| && OnLineAt(cs, j, startX, startY, dist) ==>
            HypotAt(cs, j, startX, startY) >= HypotAt(cs, r.value, startX, startY))
  {
    if |cs| > 0 {
      var n := |cs| - 1;
      var front := cs[..n];
      NearestIsFirstClosest(front, startX, startY, dist);
      assert forall j :: 0 <= j < n ==> front[j] == cs[j];
      assert forall j :: 0 <= j < n ==>
        (OnLineAt(front, j, startX, startY, dist) <==> OnLineAt(cs, j, startX, startY, dist))
        && HypotAt(front, j, startX, startY) == HypotAt(cs, j, startX, startY);
    }
  }

  lemma LineSelectStep(cs: seq<Character>, i: nat, startX: int, startY: int, dist: int)
    requires i < |cs|
    ensures LineSelect(cs[..i + 1], startX, startY, dist) ==
      LineSelect(cs[..i], startX, startY, dist) + (if OnLineAt(cs, i, startX, startY, dist) then [cs[i]] else [])
  {
    assert cs[..i + 1][..i] == cs[..i];
  }

  lemma NearestStep(cs: seq<Character>, i: nat, startX: int, startY: int, dist: int)
    requires i < |cs|
    ensures var prev := Nearest(cs[..i], startX, startY, dist);
      Nearest(cs[..i + 1], startX, startY, dist) ==
        if !OnLineAt(cs, i, startX, startY, dist) then prev
        else if prev.None? then Some(i)
        else if HypotAt(cs, prev.value, startX, startY) > HypotAt(cs, i, startX, startY) then Some(i)
        else prev
  {
    var prev := Nearest(cs[..i], startX, startY, dist);
    assert cs[..i + 1][..i] == cs[..i];
    assert prev.Some? ==> cs[..i][prev.value] == cs[prev.value];
  }

  /** The response of the non-piercing line: the picked character, if any. */
  function NearestResponse(cs: seq<Character>, startX: int, startY: int, dist: int): seq<Character>
    reads cs
  {
    match Nearest(cs, startX, startY, dist)
    case None => []
    case Some(i) => [cs[i]]
  }

  /** The configuration of the ally created in iteration `i`. */
  function AllyConfig(i: nat, villager: CharacterConfig, veteran: CharacterConfig): CharacterConfig
  {
    if i % 5 == 0 then veteran else villager
  }

  /** How many of the first `n` allies are built from the veteran
      configuration. */
  function VeteranCount(n: nat, villager: CharacterConfig, veteran: CharacterConfig): nat
  {
    if n == 0 then 0
    else VeteranCount(n - 1, villager, veteran) + (if AllyConfig(n - 1, villager, veteran) == veteran then 1 else 0)
  }

  /** With two different configurations, every fifth ally, starting with
      the first, is a veteran. */
  lemma {:induction false} VeteransEveryFifth(n: nat, villager: CharacterConfig, veteran: CharacterConfig)
    requires villager != veteran
    ensures VeteranCount(n, villager, veteran) == (n + 4) / 5
  {
    if n > 0 {
      VeteransEveryFifth(n - 1, villager, veteran);
    }
  }

  /** The number of allies `create_allies(amount)` is meant to add: one per
      iteration of `range(amount)`, which is empty for a non-positive amount. */
  function AlliesAdded(amount: int): (r: nat)
    ensures amount > 0 ==> r == amount
    ensures amount <= 0 ==> r == 0
  {
    if amount > 0 then amount else 0
  }

  /** `create_allies(amount)` as written: the first iteration calls
      `NPC(data, name, )`, and `NPC` leaves the abstract `get_armor`,
      `get_resistances` and `calc_distance` of `Character` unimplemented, so
      instantiating it raises a TypeError before any ally is appended. None
      stands for that TypeError, otherwise the number of allies added. */
  function AlliesAddedAsWritten(amount: int): (r: Option<nat>)
    ensures r.None? <==> amount > 0
    ensures r.Some? ==> r.value == 0
  {
    if amount > 0 then None else Some(0)
  }

  /** For every positive amount, the default 20 included, the call as
      written raises where it is meant to add `amount` allies. */
  lemma CreateAlliesRaises(amount: int)
    requires amount > 0
    ensures AlliesAddedAsWritten(amount) == None && AlliesAdded(amount) == amount
  {
  }

  class GameController {
    const ogX: int
    const ogY: int
    const ogMeter: real
    var pcs: seq<Character>
    var allies: seq<Character>
    var enemies: seq<Character>
    var chars: seq<Character>

    /** `GameController.__init__()`: the reference resolution, the pixel size
        and four empty character lists. */
    constructor ()
      ensures ogX == 1000 && ogY == 683 && ogMeter == 152.5 / 434.0
      ensures pcs == [] && allies == [] && enemies == [] && chars == []
    {
      ogX := 1000;
      ogY := 683;
      ogMeter := 152.5 / 434.0;
      pcs := [];
      allies := [];
      enemies := [];
      chars := [];
    }

    /** The selection loop of `get_characters_aoe`. */
    method GetCharactersAoe(startX: int, startY: int, pixelDist: int) returns (response: seq<Character>)
      ensures response == AoeSelect(chars, startX, startY, pixelDist)
    {
      response := [];
      var i := 0;
      while i < |chars|
        invariant 0 <= i <= |chars|
        invariant response == AoeSelect(chars[..i], startX, startY, pixelDist)
      {
        var c := chars[i];
        assert chars[..i + 1][..i] == chars[..i];
        var xDist := c.posX - startX;
        var yDist := c.posY - startY;
        if 0 < xDist < 2 && 0 < yDist < 2 {
          i := i + 1;
          continue;
        }
        if xDist * xDist + yDist * yDist <= pixelDist {
          response := response + [c];
        }
        i := i + 1;
      }
      assert chars[..i] == chars;
    }

    /** The tests of one character in `get_characters_line`: the skip, the
        cross product and the distance. */
    method TestAt(i: nat, startX: int, startY: int, dist: int) returns (onLine: bool, charDist: int)
      requires i < |chars|
      ensures onLine == OnLineAt(chars, i, startX, startY, dist)
      ensures charDist == HypotAt(chars, i, startX, startY)
    {
      var c := chars[i];
      var xDist := c.posX - startX;
      var yDist := c.posY - startY;
      charDist := HypotSquared(xDist, yDist);
      if 0 < xDist < 2 && 0 < yDist < 2 {
        return false, charDist;
      }
      var cross := xDist * startY - yDist * startX;
      onLine := !(cross > 3 || TooFar(charDist, dist));
    }

    /** What the selection loop of `get_characters_line` holds after the
        first `i` characters. */
    predicate LineProgress(i: nat, startX: int, startY: int, dist: int, pierce: bool,
                           response: seq<Character>, first: Option<nat>, firstDist: int)
      requires i <= |chars|
      reads this, chars
    {
      && (pierce ==> response == LineSelect(chars[..i], startX, startY, dist))
      && (!pierce ==> response == [] && first == Nearest(chars[..i], startX, startY, dist))
      && (!pierce && first.Some? ==> first.value < i && firstDist == HypotAt(chars, first.value, startX, startY))
    }

    /** One iteration of the selection loop: a character on the line is
        appended when piercing, and otherwise replaces the pick if there is
        none yet or it is strictly nearer. */
    method LineStep(i: nat, startX: int, startY: int, dist: int, pierce: bool,
                    response: seq<Character>, first: Option<nat>, firstDist: int)
      returns (response': seq<Character>, first': Option<nat>, firstDist': int)
      requires i < |chars|
      requires LineProgress(i, startX, startY, dist, pierce, response, first, firstDist)
      ensures LineProgress(i + 1, startX, startY, dist, pierce, response', first', firstDist')
    {
      if pierce {
        LineSelectStep(chars, i, startX, startY, dist);
      } else {
        NearestStep(chars, i, startX, startY, dist);
      }
      response', first', firstDist' := response, first, firstDist;
      var onLine, charDist := TestAt(i, startX, startY, dist);
      if onLine {
        if pierce {
          response' := response + [chars[i]];
        } else if first.None? {
          first' := Some(i);
          firstDist' := charDist;
        } else if firstDist > charDist {
          first' := Some(i);
          firstDist' := charDist;
        }
      }
    }

    /** The selection loop of `get_characters_line`: every character on the
        line when piercing, otherwise the nearest one. */
    method GetCharactersLine(startX: int, startY: int, dist: int, pierce: bool) returns (response: seq<Character>)
      ensures pierce ==> response == LineSelect(chars, startX, startY, dist)
      ensures !pierce ==> response == NearestResponse(chars, startX, startY, dist)
    {
      response := [];
      var first: Option<nat> := None;
      var firstDist := 0;
      var i := 0;
      while i < |chars|
        invariant 0 <= i <= |chars|
        invariant LineProgress(i, startX, startY, dist, pierce, response, first, firstDist)
      {
        response, first, firstDist := LineStep(i, startX, startY, dist, pierce, response, first, firstDist);
        i := i + 1;
      }
      assert chars[..i] == chars;
      if !pierce && first.Some? {
        response := response + [chars[first.value]];
      }
    }

    /** The configuration and name choice of `create_allies(amount)`, with the
        two configuration files already read: iteration `i` uses the veteran
        configuration when `i % 5 == 0`, and each name ends in the number of
        allies there were before it. */
    method CreateAllies(amount: int, villager: CharacterConfig, veteran: CharacterConfig)
      modifies this`allies
      ensures |allies| == |old(allies)| + AlliesAdded(amount)
      ensures allies[..|old(allies)|] == old(allies)
      ensures forall k :: |old(allies)| <= k < |allies| ==>
        var conf := AllyConfig(k - |old(allies)|, villager, veteran);
        fresh(allies[k]) && allies[k].BuiltFrom(conf, conf.name + NatToString(k), 0, 0, [])
    {
      var i := 0;
      while i < amount
        invariant 0 <= i <= (if amount > 0 then amount else 0)
        invariant |allies| == |old(allies)| + i
        invariant allies[..|old(allies)|] == old(allies)
        invariant forall k :: |old(allies)| <= k < |allies| ==>
          var conf := AllyConfig(k - |old(allies)|, villager, veteran);
          fresh(allies[k]) && allies[k].BuiltFrom(conf, conf.name + NatToString(k), 0, 0, [])
      {
        var conf := villager;
        if i % 5 == 0 {
          conf := veteran;
        }
        var name := conf.name + NatToString(|allies|);
        var c := new Character(conf, name, 0, 0, []);
        allies := allies + [c];
        i := i + 1;
      }
    }
  }
}
