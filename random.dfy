/**
 * The deterministic sequencer of random.js: a stream of draws addressed by
 * (seed, cursor), where every draw consumes exactly one cursor position, so a
 * run can be replayed from its persisted seed and cursor.
 *
 * `pseudoRandom` itself (a `Math.sin` hash) is floating point; the model takes it
 * as an oracle `draw` whose only known property is the one its last line
 * guarantees, `value - Math.floor(value)` lies in [0, 1).
 */
module Random {
  import opened Wrappers
  import opened Seqs

  /** `pseudoRandom(seed, cursor)`: a pure function of its two arguments with values in [0, 1). */
  type Draw = f: (int, int) -> real | forall seed: int, cursor: int :: 0.0 <= f(seed, cursor) < 1.0
    witness (seed: int, cursor: int) => 0.0

  datatype Sample = Sample(value: real, cursor: int)

  datatype Pick = Pick(index: nat, cursor: int)

  datatype Choice<T> = Choice(choice: T, cursor: int)

  /** `nextRandom`: one draw, and the cursor moves on by exactly one. */
  function NextRandom(draw: Draw, seed: int, cursor: int): (r: Sample)
    ensures 0.0 <= r.value < 1.0
    ensures r.cursor == cursor + 1
  {
    Sample(draw(seed, cursor), cursor + 1)
  }

  /** `Math.floor(value * max)` for a value in [0, 1) is an index below `max`. */
  function Scale(value: real, max: int): (i: nat)
    requires 0.0 <= value < 1.0 && max > 0
    ensures i < max
  {
    var x := value * max as real;
    assert 0.0 <= x < max as real by {
      assert value * max as real < 1.0 * max as real;
    }
    x.Floor
  }

  /** `randomInt`: throws (None) unless `max` is positive; otherwise an index in [0, max)
      obtained from exactly one draw. */
  function RandomInt(draw: Draw, max: int, seed: int, cursor: int): (r: Option<Pick>)
    ensures r.None? <==> max <= 0
    ensures r.Some? ==> r.value.index < max && r.value.cursor == cursor + 1
  {
    if max <= 0 then None
    else
      var s := NextRandom(draw, seed, cursor);
      Some(Pick(Scale(s.value, max), s.cursor))
  }

  /** How many items a draw of `count` out of `available` yields: `min(count, available)`,
      and none for a count that is not positive. */
  function Amount(count: int, available: nat): nat {
    if count <= 0 then 0 else if count < available then count else available
  }

  /** The stream of `takeRandomItems` from a given pool, picked-so-far list and cursor:
      while more are wanted and the pool is not empty, draw an index into the pool
      and move that element to the picked list. */
  function TakeFrom<T>(draw: Draw, seed: int, pool: seq<T>, picked: seq<T>, count: int, cursor: int): (seq<T>, int)
    decreases |pool|
  {
    if |picked| < count && |pool| > 0 then
      var p := RandomInt(draw, |pool|, seed, cursor).value;
      TakeFrom(draw, seed, RemoveAt(pool, p.index), picked + [pool[p.index]], count, p.cursor)
    else
      (picked, cursor)
  }

  /** How the input positions of the pool and of the picked items evolve in one step of
      `takeRandomItems`: the pool keeps its positions in increasing order, and the
      position moved to the picked list is one that was never picked before. */
  ghost predicate Tracked<T>(items: seq<T>, pool: seq<T>, poolPos: seq<nat>, picked: seq<T>, positions: seq<nat>) {
    && |poolPos| == |pool| && Increasing(poolPos)
    && (forall j :: 0 <= j < |pool| ==> poolPos[j] < |items| && pool[j] == items[poolPos[j]])
    && |positions| == |picked| && Distinct(positions)
    && (forall k :: 0 <= k < |positions| ==> positions[k] < |items| && picked[k] == items[positions[k]])
    && (forall k, j :: 0 <= k < |positions| && 0 <= j < |poolPos| ==> positions[k] != poolPos[j])
  }

  lemma PickKeepsTracked<T>(items: seq<T>, pool: seq<T>, poolPos: seq<nat>, picked: seq<T>, positions: seq<nat>, i: nat)
    requires Tracked(items, pool, poolPos, picked, positions) && i < |pool|
    ensures Tracked(items, RemoveAt(pool, i), RemoveAt(poolPos, i), picked + [pool[i]], positions + [poolPos[i]])
  {
    var poolPos', positions' := RemoveAt(poolPos, i), positions + [poolPos[i]];
    forall a, b | 0 <= a < b < |poolPos'| ensures poolPos'[a] < poolPos'[b] {
      assert poolPos'[a] == poolPos[if a < i then a else a + 1];
      assert poolPos'[b] == poolPos[if b < i then b else b + 1];
    }
    forall a, b | 0 <= a < b < |positions'| ensures positions'[a] != positions'[b] {
      if b == |positions| {
        assert positions'[b] == poolPos[i];
      }
    }
    forall k, j | 0 <= k < |positions'| && 0 <= j < |poolPos'| ensures positions'[k] != poolPos'[j] {
      assert poolPos'[j] == poolPos[if j < i then j else j + 1];
    }
  }

  /** `takeRandomItems`: draws without replacement from a local copy of `items`.
      The result is what the stream `TakeFrom` gives for these inputs (so a replay
      from the same seed and cursor reproduces it); it has `min(count, |items|)` items,
      each at an input position never picked twice; picked and leftover together are a
      permutation of the input; and the cursor moves on by exactly one per item. */
  method TakeRandomItems<T>(draw: Draw, items: seq<T>, count: int, seed: int, cursor: int)
    returns (picked: seq<T>, next: int, ghost positions: seq<nat>, ghost leftover: seq<T>)
    ensures (picked, next) == TakeFrom(draw, seed, items, [], count, cursor)
    ensures |picked| == Amount(count, |items|)
    ensures next == cursor + |picked|
    ensures |positions| == |picked| && Distinct(positions)
    ensures forall k :: 0 <= k < |positions| ==> positions[k] < |items| && picked[k] == items[positions[k]]
    ensures multiset(picked) + multiset(leftover) == multiset(items)
  {
    var pool := items;
    ghost var poolPos: seq<nat> := seq(|items|, k requires 0 <= k < |items| => k);
    picked, positions := [], [];
    var current := cursor;
    while |picked| < count && |pool| > 0
      invariant TakeFrom(draw, seed, pool, picked, count, current) == TakeFrom(draw, seed, items, [], count, cursor)
      invariant current == cursor + |picked|
      invariant Drawing(items, count, pool, poolPos, picked, positions)
    {
      var p := RandomInt(draw, |pool|, seed, current).value;
      var i := p.index;
      DrawStep(items, count, pool, poolPos, picked, positions, i);
      positions, poolPos := positions + [poolPos[i]], RemoveAt(poolPos, i);
      picked := picked + [pool[i]];
      pool := RemoveAt(pool, i);
      current := p.cursor;
    }
    DrawDone(items, count, pool, poolPos, picked, positions);
    next := current;
    leftover := pool;
  }

  /** The state the loop of `takeRandomItems` keeps: nothing lost or duplicated, no more
      picked than asked for, and every picked item traced to its own input position. */
  ghost predicate Drawing<T>(items: seq<T>, count: int, pool: seq<T>, poolPos: seq<nat>, picked: seq<T>, positions: seq<nat>) {
    && |picked| + |pool| == |items|
    && (count <= 0 ==> picked == [])
    && (count > 0 ==> |picked| <= count)
    && Tracked(items, pool, poolPos, picked, positions)
    && multiset(picked) + multiset(pool) == multiset(items)
  }

  lemma DrawStep<T>(items: seq<T>, count: int, pool: seq<T>, poolPos: seq<nat>, picked: seq<T>, positions: seq<nat>, i: nat)
    requires Drawing(items, count, pool, poolPos, picked, positions)
    requires |picked| < count && i < |pool|
    ensures Drawing(items, count, RemoveAt(pool, i), RemoveAt(poolPos, i), picked + [pool[i]], positions + [poolPos[i]])
  {
    PickKeepsTracked(items, pool, poolPos, picked, positions, i);
    assert multiset(picked + [pool[i]]) == multiset(picked) + multiset{pool[i]};
  }

  lemma DrawDone<T>(items: seq<T>, count: int, pool: seq<T>, poolPos: seq<nat>, picked: seq<T>, positions: seq<nat>)
    requires Drawing(items, count, pool, poolPos, picked, positions)
    requires !(|picked| < count && |pool| > 0)
    ensures |picked| == Amount(count, |items|)
    ensures |positions| == |picked| && Distinct(positions)
    ensures forall k :: 0 <= k < |positions| ==> positions[k] < |items| && picked[k] == items[positions[k]]
    ensures multiset(picked) + multiset(pool) == multiset(items)
  {
  }

  /** The stream of the Fisher–Yates loop of `shuffleItems` from position `i` down to 1:
      draw an index in [0, i] and swap it with position `i`. */
  function ShuffleDown<T>(draw: Draw, seed: int, a: seq<T>, i: int, cursor: int): (seq<T>, int)
    requires i < |a|
    decreases i
  {
    if i <= 0 then
      (a, cursor)
    else
      var p := RandomInt(draw, i + 1, seed, cursor).value;
      ShuffleDown(draw, seed, a[i := a[p.index]][p.index := a[i]], i - 1, p.cursor)
  }

  /** `shuffleItems`: Fisher–Yates on a local copy of `items`. The result is what the
      stream `ShuffleDown` gives for these inputs, a permutation of `items`, and the
      cursor moves on by `|items| - 1` draws (none for fewer than two items). */
  method ShuffleItems<T>(draw: Draw, items: seq<T>, seed: int, cursor: int) returns (shuffled: seq<T>, next: int)
    ensures (shuffled, next) == ShuffleDown(draw, seed, items, |items| - 1, cursor)
    ensures |shuffled| == |items| && multiset(shuffled) == multiset(items)
    ensures next == cursor + (if |items| > 1 then |items| - 1 else 0)
  {
    var a := new T[|items|](k requires 0 <= k < |items| => items[k]);
    assert a[..] == items;
    var current := cursor;
    var i := a.Length - 1;
    while i > 0
      invariant -1 <= i < a.Length
      invariant a.Length > 0 ==> i >= 0
      invariant ShuffleDown(draw, seed, a[..], i, current) == ShuffleDown(draw, seed, items, |items| - 1, cursor)
      invariant multiset(a[..]) == multiset(items)
      invariant current == cursor + (|items| - 1 - i)
    {
      var p := RandomInt(draw, i + 1, seed, current).value;
      var j := p.index;
      a[i], a[j] := a[j], a[i];
      current := p.cursor;
      i := i - 1;
    }
    shuffled := a[..];
    next := current;
  }

  /** `deterministicChoice`: throws (None) on an empty list, otherwise one of the items,
      chosen with exactly one draw. */
  function DeterministicChoice<T>(draw: Draw, items: seq<T>, seed: int, cursor: int): (r: Option<Choice<T>>)
    ensures r.None? <==> |items| == 0
    ensures r.Some? ==> r.value.choice in items && r.value.cursor == cursor + 1
  {
    match RandomInt(draw, |items|, seed, cursor)
    case None => None
    case Some(p) => Some(Choice(items[p.index], p.cursor))
  }
}
