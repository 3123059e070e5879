/** The turn scheduler (civilwar/utils/turn_order.py). A template queue holds
    every participant in turn order; each round works through a copy of it.
    Participants are compared as Python compares characters, by identity,
    which the type parameter's equality stands for. */
module TurnOrder {
  import opened Common

  /** The scheduler's state: the template, the working queue of the current
      round, the character whose turn it is and the round number. */
  datatype Schedule<T> = Schedule(original: seq<T>, roundQueue: seq<T>, active: Option<T>, round: int)

  /** The state of a scheduler just built. */
  function Fresh<T>(): Schedule<T>
  {
    Schedule([], [], None, 0)
  }

  /** `get_next()`: the front of the working queue becomes active. An empty
      working queue is first refilled from the template, which starts a new
      round; with both queues empty nobody is active. */
  function Next<T>(s: Schedule<T>): (r: Schedule<T>)
    ensures r.original == s.original
    ensures |s.roundQueue| > 0 ==>
      r == Schedule(s.original, s.roundQueue[1..], Some(s.roundQueue[0]), s.round)
    ensures |s.roundQueue| == 0 && |s.original| > 0 ==>
      r == Schedule(s.original, s.original[1..], Some(s.original[0]), s.round + 1)
    ensures |s.roundQueue| == 0 && |s.original| == 0 ==> r == s.(active := None)
  {
    if |s.roundQueue| == 0 then
      if |s.original| > 0 then
        var queue := s.original;
        Schedule(s.original, queue[1..], Some(queue[0]), s.round + 1)
      else s.(active := None)
    else Schedule(s.original, s.roundQueue[1..], Some(s.roundQueue[0]), s.round)
  }

  /** The position of the first occurrence of `x` in `s`. */
  function FirstIndex<T(==)>(s: seq<T>, x: T): (i: nat)
    requires x in s
    ensures i < |s| && s[i] == x
    ensures forall j :: 0 <= j < i ==> s[j] != x
  {
    if s[0] == x then 0 else 1 + FirstIndex(s[1..], x)
  }

  /** `list.remove(x)`: drops the first occurrence of `x`, keeping the order
      of everything else. */
  function RemoveFirst<T(==)>(s: seq<T>, x: T): (r: seq<T>)
    requires x in s
    ensures r == s[..FirstIndex(s, x)] + s[FirstIndex(s, x) + 1..]
    ensures |r| == |s| - 1
    ensures multiset(r) == multiset(s) - multiset{x}
  {
    var i := FirstIndex(s, x);
    assert s == s[..i] + [s[i]] + s[i + 1..];
    s[..i] + s[i + 1..]
  }

  /** `remove(char)`: a character in the template leaves it, and leaves the
      working queue too if it is waiting there; anyone else is ignored, and
      the active character stays active either way. */
  function Removed<T(==)>(s: Schedule<T>, c: T): (r: Schedule<T>)
    ensures r.active == s.active && r.round == s.round
    ensures c !in s.original ==> r == s
    ensures c in s.original ==> r.original == RemoveFirst(s.original, c)
    ensures c in s.original && c in s.roundQueue ==> r.roundQueue == RemoveFirst(s.roundQueue, c)
    ensures c !in s.roundQueue ==> r.roundQueue == s.roundQueue
  {
    if c in s.original then
      s.(original := RemoveFirst(s.original, c),
         roundQueue := if c in s.roundQueue then RemoveFirst(s.roundQueue, c) else s.roundQueue)
    else s
  }

  /** Everyone waiting in the working queue is in the template. */
  ghost predicate QueueInTemplate<T>(s: Schedule<T>)
  {
    multiset(s.roundQueue) <= multiset(s.original)
  }

  lemma NextKeepsQueueInTemplate<T>(s: Schedule<T>)
    requires QueueInTemplate(s)
    ensures QueueInTemplate(Next(s))
  {
    if |s.roundQueue| > 0 {
      assert s.roundQueue == [s.roundQueue[0]] + s.roundQueue[1..];
    } else if |s.original| > 0 {
      assert s.original == [s.original[0]] + s.original[1..];
    }
  }

  lemma RemovedKeepsQueueInTemplate<T>(s: Schedule<T>, c: T)
    requires QueueInTemplate(s)
    ensures QueueInTemplate(Removed(s, c))
  {
  }

  lemma AddKeepsQueueInTemplate<T>(s: Schedule<T>, cs: seq<T>)
    requires QueueInTemplate(s)
    ensures QueueInTemplate(s.(original := s.original + cs))
  {
  }

  /** The state after `n` calls of `get_next()`. */
  function Steps<T>(s: Schedule<T>, n: nat): Schedule<T>
    decreases n
  {
    if n == 0 then s else Steps(Next(s), n - 1)
  }

  /** What `n` calls of `get_next()` return, in order. */
  function Yields<T>(s: Schedule<T>, n: nat): seq<Option<T>>
    decreases n
  {
    if n == 0 then [] else [Next(s).active] + Yields(Next(s), n - 1)
  }

  /** The characters of `t`, each as returned by `get_next()`. */
  function Somes<T>(t: seq<T>): (r: seq<Option<T>>)
    ensures |r| == |t| && forall i :: 0 <= i < |t| ==> r[i] == Some(t[i])
  {
    seq(|t|, i requires 0 <= i < |t| => Some(t[i]))
  }

  /** `t` returned `m` times over. */
  function Cycles<T>(t: seq<T>, m: nat): seq<Option<T>>
  {
    if m == 0 then [] else Cycles(t, m - 1) + Somes(t)
  }

  /** Steps and their results compose. */
  lemma {:induction false} StepsSplit<T>(s: Schedule<T>, a: nat, b: nat)
    ensures Steps(s, a + b) == Steps(Steps(s, a), b)
    ensures Yields(s, a + b) == Yields(s, a) + Yields(Steps(s, a), b)
    decreases a
  {
    if a > 0 {
      StepsSplit(Next(s), a - 1, b);
      assert a + b - 1 == (a - 1) + b;
    }
  }

  /** Working through a queue of `k` or more returns its first `k` members
      in order and leaves the rest, within the same round. */
  lemma {:induction false} DrainQueue<T>(s: Schedule<T>, k: nat)
    requires k <= |s.roundQueue|
    ensures Yields(s, k) == Somes(s.roundQueue[..k])
    ensures Steps(s, k).original == s.original && Steps(s, k).round == s.round
    ensures Steps(s, k).roundQueue == s.roundQueue[k..]
    ensures k > 0 ==> Steps(s, k).active == Some(s.roundQueue[k - 1])
    decreases k
  {
    if k > 0 {
      var s' := Next(s);
      DrainQueue(s', k - 1);
      assert s'.roundQueue[..k - 1] == s.roundQueue[1..k];
      assert s'.roundQueue[k - 1..] == s.roundQueue[k..];
      assert Somes(s.roundQueue[..k]) == [Some(s.roundQueue[0])] + Somes(s.roundQueue[1..k]);
    }
  }

  /** With an empty working queue, `|t|` calls return the template in order,
      raise the round by exactly one, and empty the working queue again. */
  lemma OneRound<T>(s: Schedule<T>)
    requires |s.original| > 0 && s.roundQueue == []
    ensures Yields(s, |s.original|) == Somes(s.original)
    ensures Steps(s, |s.original|) == Schedule(s.original, [], Some(s.original[|s.original| - 1]), s.round + 1)
  {
    var t := s.original;
    var s' := Next(s);
    assert s' == Schedule(t, t[1..], Some(t[0]), s.round + 1);
    DrainQueue(s', |t| - 1);
    assert t[1..][..|t| - 1] == t[1..];
    assert t[1..][|t| - 1..] == [];
    assert Yields(s, |t|) == [Some(t[0])] + Yields(s', |t| - 1);
    assert Steps(s, |t|) == Steps(s', |t| - 1);
    assert Somes(t) == [Some(t[0])] + Somes(t[1..]);
    if |t| > 1 {
      assert t[1..][|t| - 2] == t[|t| - 1];
    }
  }

  /** From an empty working queue, `m` rounds return the template `m`
      times over, in order, and the round rises once per round. */
  lemma {:induction false} RoundsCycle<T>(s: Schedule<T>, m: nat)
    requires |s.original| > 0 && s.roundQueue == []
    ensures Yields(s, m * |s.original|) == Cycles(s.original, m)
    ensures Steps(s, m * |s.original|).round == s.round + m
    ensures Steps(s, m * |s.original|).roundQueue == []
    ensures Steps(s, m * |s.original|).original == s.original
  {
    if m > 0 {
      var n := |s.original|;
      RoundsCycle(s, m - 1);
      assert m * n == (m - 1) * n + n;
      StepsSplit(s, (m - 1) * n, n);
      OneRound(Steps(s, (m - 1) * n));
    }
  }

  /** After a reset the round is 1, so the first call once characters are
      added starts round 2. */
  lemma ResetThenNext<T>(cs: seq<T>)
    requires |cs| > 0
    ensures Next(Schedule([], [], None, 1).(original := cs)).round == 2
    ensures Next(Schedule([], [], None, 1).(original := cs)).active == Some(cs[0])
  {
  }

  /** Where the element at position `i` of `s` lands once the element at
      position `k` is dropped. */
  function Shifted(i: nat, k: nat): nat
    requires i != k
  {
    if i < k then i else i - 1
  }

  /** A removal keeps everyone else, in their relative order: everyone
      before the first occurrence keeps their place and everyone after it
      moves up by one. */
  lemma RemoveKeepsOrder<T>(s: seq<T>, x: T, i: nat, j: nat)
    requires x in s
    requires i < j < |s| && i != FirstIndex(s, x) && j != FirstIndex(s, x)
    ensures Shifted(i, FirstIndex(s, x)) < Shifted(j, FirstIndex(s, x)) < |RemoveFirst(s, x)|
    ensures RemoveFirst(s, x)[Shifted(i, FirstIndex(s, x))] == s[i]
    ensures RemoveFirst(s, x)[Shifted(j, FirstIndex(s, x))] == s[j]
  {
    var k := FirstIndex(s, x);
    var front, back := s[..k], s[k + 1..];
    assert RemoveFirst(s, x) == front + back;
    ShiftedElement(s, k, i);
    ShiftedElement(s, k, j);
  }

  lemma ShiftedElement<T>(s: seq<T>, k: nat, i: nat)
    requires k < |s| && i < |s| && i != k
    ensures Shifted(i, k) < |s| - 1
    ensures (s[..k] + s[k + 1..])[Shifted(i, k)] == s[i]
  {
    if i > k {
      assert (s[..k] + s[k + 1..])[i - 1] == s[k + 1..][i - 1 - k];
    }
  }

  class GameTurnOrder<T(==)> {
    var originalQueue: seq<T>
    var roundQueue: seq<T>
    var activeChar: Option<T>
    var round: int

    function State(): Schedule<T>
      reads this
    {
      Schedule(originalQueue, roundQueue, activeChar, round)
    }

    /** A new scheduler has empty queues, nobody active, and round 0. */
    constructor ()
      ensures State() == Fresh()
    {
      originalQueue := [];
      roundQueue := [];
      activeChar := None;
      round := 0;
    }

    /** `add(character)`: appends to the template only. */
    method Add(character: T)
      modifies this
      ensures State() == old(State()).(original := old(originalQueue) + [character])
    {
      originalQueue := originalQueue + [character];
    }

    /** `add_all(characters)`: appends all, in order, to the template only. */
    method AddAll(characters: seq<T>)
      modifies this
      ensures State() == old(State()).(original := old(originalQueue) + characters)
    {
      originalQueue := originalQueue + characters;
    }

    /** `reset()`: empties both queues, clears the active character and sets
        the round to 1. */
    method Reset()
      modifies this
      ensures State() == Schedule([], [], None, 1)
    {
      originalQueue := [];
      roundQueue := [];
      round := 1;
      activeChar := None;
    }

    /** `get_next()`, returning the new active character. */
    method GetNext() returns (r: Option<T>)
      modifies this
      ensures State() == Next(old(State()))
      ensures r == activeChar
    {
      if |roundQueue| == 0 {
        if |originalQueue| > 0 {
          roundQueue := originalQueue;
          round := round + 1;
          activeChar := Some(roundQueue[0]);
          roundQueue := roundQueue[1..];
        } else {
          activeChar := None;
        }
      } else {
        activeChar := Some(roundQueue[0]);
        roundQueue := roundQueue[1..];
      }
      r := activeChar;
    }

    method GetActive() returns (r: Option<T>)
      ensures r == State().active
    {
      r := activeChar;
    }

    method GetRound() returns (r: int)
      ensures r == State().round
    {
      r := round;
    }

    /** `remove(char)`. */
    method Remove(c: T)
      modifies this
      ensures State() == Removed(old(State()), c)
    {
      if c in originalQueue {
        originalQueue := RemoveFirst(originalQueue, c);
        if c in roundQueue {
          roundQueue := RemoveFirst(roundQueue, c);
        }
      }
    }
  }
}
