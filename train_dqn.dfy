/** The parts of the DQN trainer that are not the network: the bounded
    experience replay memory, the early return of the optimisation step, and
    the convolution output size that fixes the first linear layer. The
    random draw of `random.sample` is a parameter: the indices it picked. */
module TrainDqn {
  import opened Wrappers
  import Arith

  /** `BATCH_SIZE` */
  const BatchSize := 32

  /** `MEMORY_SIZE` */
  const MemorySize := 50000

  // ---------------------------------------------------------------------------
  // The bounded deque

  function Min(a: int, b: int): int {
    if a <= b then a else b
  }

  /** The newest `n` items of `s`, oldest first (all of `s` when it is
      shorter). */
  function Last<T>(n: nat, s: seq<T>): seq<T> {
    s[|s| - Min(n, |s|)..]
  }

  /** What `deque(maxlen=cap).append(t)` leaves: the newest `cap` items
      after `t` is added at the newest end. */
  function Pushed<T>(m: seq<T>, cap: nat, t: T): seq<T> {
    Last(cap, m + [t])
  }

  /** A deque that is not over its bound keeps its bound, gains `t` at the
      newest end unless the bound is 0, and evicts exactly its oldest item
      when it is full; the other items keep their order. */
  lemma PushedFacts<T>(m: seq<T>, cap: nat, t: T)
    requires |m| <= cap
    ensures |Pushed(m, cap, t)| <= cap
    ensures cap > 0 ==> Pushed(m, cap, t)[|Pushed(m, cap, t)| - 1] == t
    ensures |m| < cap ==> Pushed(m, cap, t) == m + [t]
    ensures 0 < cap == |m| ==> Pushed(m, cap, t) == m[1..] + [t]
    ensures cap == 0 ==> Pushed(m, cap, t) == []
  {
    if 0 < cap == |m| {
      assert (m + [t])[1..] == m[1..] + [t];
    }
  }

  /** Trimming to the newest `n` items before an append changes nothing. */
  lemma LastAppend<T>(n: nat, s: seq<T>, t: T)
    ensures Last(n, Last(n, s) + [t]) == Last(n, s + [t])
  {
    var a := Last(n, s) + [t];
    var b := s + [t];
    var ra := Last(n, a);
    var rb := Last(n, b);
    assert |ra| == |rb|;
    forall i | 0 <= i < |ra|
      ensures ra[i] == rb[i]
    {
      assert ra[i] == a[|a| - |ra| + i];
      assert rb[i] == b[|b| - |rb| + i];
    }
  }

  /** The deque after `xs` are appended one by one. */
  function PushAll<T>(m: seq<T>, cap: nat, xs: seq<T>): seq<T>
    decreases |xs|
  {
    if xs == [] then m else Pushed(PushAll(m, cap, xs[..|xs| - 1]), cap, xs[|xs| - 1])
  }

  /** After any pushes, a deque within its bound holds the newest `cap` of
      everything it has seen, in the order it saw them. */
  lemma {:induction false} PushAllLast<T>(m: seq<T>, cap: nat, xs: seq<T>)
    requires |m| <= cap
    ensures PushAll(m, cap, xs) == Last(cap, m + xs)
    decreases |xs|
  {
    if xs != [] {
      var init := xs[..|xs| - 1];
      var t := xs[|xs| - 1];
      PushAllLast(m, cap, init);
      LastAppend(cap, m + init, t);
      assert m + init + [t] == m + xs;
    }
  }

  /** The trainer's memory, `ReplayMemory(MEMORY_SIZE)`, holds the newest
      50000 transitions of all it was given, oldest first. */
  lemma TrainerMemory<T>(xs: seq<T>)
    ensures PushAll([], MemorySize, xs) == Last(MemorySize, xs)
    ensures |PushAll([], MemorySize, xs)| == Min(MemorySize, |xs|)
  {
    PushAllLast([], MemorySize, xs);
    assert [] + xs == xs;
  }

  // ---------------------------------------------------------------------------
  // random.sample

  /** The draw `random.sample` made: `k` distinct positions of a population
      of `n`. */
  predicate Drawn(pick: seq<nat>, k: int, n: nat) {
    && |pick| == k
    && (forall i :: 0 <= i < |pick| ==> pick[i] < n)
    && (forall i, j :: 0 <= i < j < |pick| ==> pick[i] != pick[j])
  }

  /** The items at the drawn positions, in the order drawn. */
  function Picked<T>(m: seq<T>, pick: seq<nat>): seq<T>
    requires forall i :: 0 <= i < |pick| ==> pick[i] < |m|
  {
    seq(|pick|, i requires 0 <= i < |pick| => m[pick[i]])
  }

  /** Drawing without replacement takes no item more often than memory
      holds it. */
  lemma {:induction false} PickedSubMultiset<T>(m: seq<T>, pick: seq<nat>)
    requires Drawn(pick, |pick|, |m|)
    ensures multiset(Picked(m, pick)) <= multiset(m)
    decreases |m|
  {
    if m != [] {
      var n := |m| - 1;
      var init := m[..n];
      assert m == init + [m[n]];
      if j :| 0 <= j < |pick| && pick[j] == n {
        var rest := pick[..j] + pick[j + 1..];
        forall i | 0 <= i < |rest|
          ensures rest[i] < n
        {
          if i < j {
            assert rest[i] == pick[i];
          } else {
            assert rest[i] == pick[i + 1];
          }
        }
        PickedDrop(m, pick, j);
        PickedPrefix(m, rest, n);
        PickedSubMultiset(init, rest);
      } else {
        PickedPrefix(m, pick, n);
        PickedSubMultiset(init, pick);
      }
    }
  }

  /** Dropping the `j`-th draw drops the `j`-th picked item. */
  lemma PickedDrop<T>(m: seq<T>, pick: seq<nat>, j: nat)
    requires Drawn(pick, |pick|, |m|) && j < |pick|
    ensures var rest := pick[..j] + pick[j + 1..];
      Drawn(rest, |rest|, |m|)
      && multiset(Picked(m, pick)) == multiset(Picked(m, rest)) + multiset{m[pick[j]]}
  {
    var rest := pick[..j] + pick[j + 1..];
    var s := Picked(m, pick);
    assert Picked(m, rest) == s[..j] + s[j + 1..];
    assert s == s[..j] + [s[j]] + s[j + 1..];
  }

  /** Positions below `n` pick the same items from the first `n` items. */
  lemma PickedPrefix<T>(m: seq<T>, pick: seq<nat>, n: nat)
    requires n <= |m|
    requires forall i :: 0 <= i < |pick| ==> pick[i] < n
    ensures Picked(m, pick) == Picked(m[..n], pick)
  {
  }

  // ---------------------------------------------------------------------------
  // ReplayMemory

  /** `ReplayMemory`: a deque of transitions bounded by `capacity`, oldest
      first. */
  class ReplayMemory<T> {
    const capacity: nat
    var memory: seq<T>

    ghost predicate Valid()
      reads this
    {
      |memory| <= capacity
    }

    /** `__init__`: an empty deque with the given bound. */
    constructor (capacity: nat)
      ensures this.capacity == capacity && memory == [] && Valid()
    {
      this.capacity := capacity;
      memory := [];
    }

    /** `push`: `append` on a bounded deque, which drops the oldest item
        when the deque is full and keeps nothing when the bound is 0. */
    method Push(t: T)
      requires Valid()
      modifies this
      ensures memory == Pushed(old(memory), capacity, t)
      ensures Valid()
    {
      PushedFacts(memory, capacity, t);
      if |memory| < capacity {
        memory := memory + [t];
      } else if capacity > 0 {
        memory := memory[1..] + [t];
      }
    }

    /** `__len__`: the number of transitions held, never above the bound. */
    function Len(): (n: nat)
      requires Valid()
      reads this
      ensures n <= capacity
      ensures n == |memory|
    {
      |memory|
    }

    /** `sample`: `random.sample` of `k` transitions, which raises
        `ValueError` (here `None`) when `k` is negative or above the length,
        and otherwise returns `k` transitions drawn without replacement. */
    method Sample(k: int, pick: seq<nat>) returns (batch: Option<seq<T>>)
      requires 0 <= k <= |memory| ==> Drawn(pick, k, |memory|)
      ensures batch.None? <==> !(0 <= k <= |memory|)
      ensures batch.Some? ==> |batch.value| == k && batch.value == Picked(memory, pick)
      ensures batch.Some? ==> multiset(batch.value) <= multiset(memory)
    {
      if k < 0 || k > |memory| {
        return None;
      }
      PickedSubMultiset(memory, pick);
      batch := Some(Picked(memory, pick));
    }
  }

  /** The sampling part of `optimize_model`: nothing is drawn while memory
      holds fewer than `BATCH_SIZE` transitions; otherwise exactly
      `BATCH_SIZE` distinct transitions are drawn. */
  method OptimizeModel<T>(mem: ReplayMemory<T>, pick: seq<nat>) returns (batch: Option<seq<T>>)
    requires mem.Valid()
    requires |mem.memory| >= BatchSize ==> Drawn(pick, BatchSize, |mem.memory|)
    ensures |mem.memory| < BatchSize ==> batch == None
    ensures |mem.memory| >= BatchSize ==>
      && batch == Some(Picked(mem.memory, pick))
      && |batch.value| == BatchSize
      && multiset(batch.value) <= multiset(mem.memory)
  {
    if mem.Len() < BatchSize {
      return None;
    }
    batch := mem.Sample(BatchSize, pick);
  }

  // ---------------------------------------------------------------------------
  // conv2d_size_out

  /** `conv2d_size_out`: the output size of a convolution without padding,
      with Python's floor division. */
  function ConvSizeOut(n: int, k: int, s: int): int
    requires s > 0
  {
    (n - (k - 1) - 1) / s + 1
  }

  /** When the input holds the kernel, the output size is positive and it is
      the number of kernel placements at stride `s`: the last one fits and
      one more would not. */
  lemma ConvWindow(n: int, k: int, s: int)
    requires s > 0 && n >= k
    ensures var r := ConvSizeOut(n, k, s);
      r >= 1 && (r - 1) * s + k <= n < r * s + k
  {
    var q := (n - k) / s;
    assert n - k == s * q + (n - k) % s;
    assert (q + 1) * s == q * s + s;
  }

  lemma ConvMonotone(a: int, b: int, k: int, s: int)
    requires s > 0 && a <= b
    ensures ConvSizeOut(a, k, s) <= ConvSizeOut(b, k, s)
  {
    Arith.DivMonotone(a - k, b - k, s);
  }

  /** The three convolutions of the network on one side of the screen. */
  function ConvStack(n: int): int {
    ConvSizeOut(ConvSizeOut(ConvSizeOut(n, 8, 4), 4, 2), 3, 1)
  }

  /** The network's layers leave a non-empty output exactly when the side
      is at least 36 pixels. */
  lemma ConvStackPositive(n: int)
    ensures ConvStack(n) >= 1 <==> n >= 36
  {
    if n >= 36 {
      ConvMonotone(36, n, 8, 4);
      ConvMonotone(ConvSizeOut(36, 8, 4), ConvSizeOut(n, 8, 4), 4, 2);
      ConvMonotone(ConvSizeOut(ConvSizeOut(36, 8, 4), 4, 2), ConvSizeOut(ConvSizeOut(n, 8, 4), 4, 2), 3, 1);
      assert ConvStack(36) == 1;
    } else {
      ConvMonotone(n, 35, 8, 4);
      ConvMonotone(ConvSizeOut(n, 8, 4), ConvSizeOut(35, 8, 4), 4, 2);
      ConvMonotone(ConvSizeOut(ConvSizeOut(n, 8, 4), 4, 2), ConvSizeOut(ConvSizeOut(35, 8, 4), 4, 2), 3, 1);
      assert ConvStack(35) == 0;
    }
  }

  /** On the 256 x 240 screen the last convolution is 28 x 26 with 64
      channels, so the first linear layer takes 46592 inputs. */
  lemma LinearInputSize()
    ensures ConvStack(256) == 28 && ConvStack(240) == 26
    ensures ConvStack(256) * ConvStack(240) * 64 == 46592
  {
  }
}
