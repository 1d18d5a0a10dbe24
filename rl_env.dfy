/** The gym environment of the Python RL client: the discrete action is
    decoded into a controller message, the emulator's frame is turned into an
    RGB observation, and the reward is the scaled mean pixel change. The gRPC
    calls are parameters here: a frame is `Some(pixels)` when `GetFrame`
    answered and `None` when it raised an RPC error. */
module RlEnv {
  import opened Wrappers
  import opened Api
  import Arith

  // ---------------------------------------------------------------------------
  // Arithmetic on Python integers

  function Pow2(n: nat): (p: nat)
    ensures p >= 1
  {
    if n == 0 then 1 else 2 * Pow2(n - 1)
  }

  /** Reducing modulo `2 m` keeps the lowest bit, and halving commutes with
      it. */
  lemma ModTwo(a: int, m: int)
    requires m > 0
    ensures (a % (2 * m)) % 2 == a % 2
    ensures (a % (2 * m)) / 2 == (a / 2) % m
  {
    var q, r := a / (2 * m), a % (2 * m);
    var h, s := r / 2, r % 2;
    assert a == 2 * (m * q + h) + s;
    Arith.DivUnique(a, 2, m * q + h, s);
    Arith.DivUnique(a / 2, m, q, h);
  }

  // ---------------------------------------------------------------------------
  // _action_to_proto

  /** Bit `i` of a Python integer, in two's complement as `&` sees it:
      `action & (1 << i)` is non-zero. Dafny's `/` and `%` by 2 round toward
      minus infinity like Python's, so negative actions are covered too. */
  function Bit(a: int, i: nat): bool
    decreases i
  {
    if i == 0 then a % 2 == 1 else Bit(a / 2, i - 1)
  }

  /** `_action_to_proto`: player 1, and bit 0 ... bit 7 of the action as A,
      B, Select, Start, Up, Down, Left, Right. */
  function ActionToProto(action: int): InputState {
    InputState(1, [Bit(action, 0), Bit(action, 1), Bit(action, 2), Bit(action, 3),
                   Bit(action, 4), Bit(action, 5), Bit(action, 6), Bit(action, 7)])
  }

  /** The lowest `n` bits, lowest first. */
  function Bits(a: int, n: nat): (bs: seq<bool>)
    ensures |bs| == n
    decreases n
  {
    if n == 0 then [] else [a % 2 == 1] + Bits(a / 2, n - 1)
  }

  /** The number whose bits, lowest first, are `bs`: the action that holds
      exactly these buttons. */
  function Value(bs: seq<bool>): (v: nat)
    ensures v < Pow2(|bs|)
    decreases |bs|
  {
    if bs == [] then 0 else (if bs[0] then 1 else 0) + 2 * Value(bs[1..])
  }

  lemma {:induction false} BitsAt(a: int, n: nat, i: nat)
    requires i < n
    ensures Bits(a, n)[i] == Bit(a, i)
    decreases n
  {
    if i > 0 {
      BitsAt(a / 2, n - 1, i - 1);
    }
  }

  /** Button `i` of the decoded message is bit `i` of the action. */
  lemma ActionBits(action: int)
    ensures ActionToProto(action).buttons == Bits(action, 8)
    ensures ActionToProto(action).playerIndex == 1
  {
    forall i | 0 <= i < 8
      ensures ActionToProto(action).buttons[i] == Bits(action, 8)[i]
    {
      BitsAt(action, 8, i);
    }
  }

  lemma {:induction false} ValueBits(a: int, n: nat)
    requires 0 <= a < Pow2(n)
    ensures Value(Bits(a, n)) == a
    decreases n
  {
    if n > 0 {
      ValueBits(a / 2, n - 1);
      assert Bits(a, n)[1..] == Bits(a / 2, n - 1);
    }
  }

  lemma {:induction false} BitsValue(bs: seq<bool>)
    ensures Bits(Value(bs), |bs|) == bs
    decreases |bs|
  {
    if bs != [] {
      var v := Value(bs);
      var b0: nat := if bs[0] then 1 else 0;
      Arith.DivUnique(v, 2, Value(bs[1..]), b0);
      BitsValue(bs[1..]);
      assert bs == [bs[0]] + bs[1..];
    }
  }

  lemma {:induction false} BitsMod(a: int, n: nat)
    ensures Bits(a % Pow2(n), n) == Bits(a, n)
    decreases n
  {
    if n > 0 {
      var m := Pow2(n - 1);
      ModTwo(a, m);
      BitsMod(a / 2, n - 1);
    }
  }

  /** Every action in the action space `Discrete(256)` is the encoding of the
      buttons it holds: decoding is injective there. */
  lemma DecodeInjective(a: int, b: int)
    requires 0 <= a < 256 && 0 <= b < 256
    ensures ActionToProto(a) == ActionToProto(b) <==> a == b
  {
    ActionBits(a);
    ActionBits(b);
    ValueBits(a, 8);
    ValueBits(b, 8);
  }

  /** Every button combination is reached by exactly one action in
      [0, 256): `Value` of the buttons. */
  lemma DecodeValue(bs: Buttons)
    ensures Value(bs) < 256
    ensures ActionToProto(Value(bs)) == InputState(1, bs)
  {
    ActionBits(Value(bs));
    BitsValue(bs);
  }

  /** Only the low eight bits of an action matter: `action & 0xFF`, which is
      `action % 256` for every Python integer, decodes the same. */
  lemma DecodeMasked(action: int)
    ensures ActionToProto(action % 256) == ActionToProto(action)
  {
    ActionBits(action);
    ActionBits(action % 256);
    BitsMod(action, 8);
  }

  // ---------------------------------------------------------------------------
  // _get_obs

  const Width := 256
  const Height := 240
  const Pixels := Width * Height

  /** The length of an observation, 240 x 256 x 3, flattened row by row. */
  const ObsLen := Pixels * 3

  /** The length of a well-formed frame payload, 256 x 240 x 4 bytes of RGBA. */
  const FrameLen := Pixels * 4

  predicate IsByte(x: int) {
    0 <= x < 256
  }

  /** The all-zero observation. */
  function Zeros(): (z: seq<int>)
    ensures |z| == ObsLen
  {
    seq(ObsLen, _ => 0)
  }

  /** The RGBA payload with the alpha byte of every pixel dropped. */
  function DropAlpha(raw: seq<int>): (rgb: seq<int>)
    requires |raw| == FrameLen
    ensures |rgb| == ObsLen
  {
    seq(ObsLen, k requires 0 <= k < ObsLen => raw[(k / 3) * 4 + k % 3])
  }

  /** `_get_obs`: the payload without alpha when it has exactly 256 x 240 x 4
      bytes; zeros for any other length and for an RPC error. */
  function Observe(frame: Option<seq<int>>): seq<int> {
    if frame.Some? && |frame.value| == FrameLen then DropAlpha(frame.value) else Zeros()
  }

  /** An observation always has the shape 240 x 256 x 3, and it is made of
      bytes when the payload is. */
  lemma ObserveShape(frame: Option<seq<int>>)
    ensures |Observe(frame)| == ObsLen
    ensures (frame.Some? ==> forall k :: 0 <= k < |frame.value| ==> IsByte(frame.value[k])) ==>
      forall k :: 0 <= k < ObsLen ==> IsByte(Observe(frame)[k])
  {
  }

  /** With a well-formed payload, channel `c` of pixel `p` is byte `c` of
      that pixel's four; otherwise every entry is 0. */
  lemma ObservePixels(frame: Option<seq<int>>, p: nat, c: nat)
    requires p < Pixels && c < 3
    ensures frame.Some? && |frame.value| == FrameLen ==>
      Observe(frame)[p * 3 + c] == frame.value[p * 4 + c]
    ensures !(frame.Some? && |frame.value| == FrameLen) ==> Observe(frame)[p * 3 + c] == 0
  {
    var k := p * 3 + c;
    Arith.DivUnique(k, 3, p, c);
  }

  // ---------------------------------------------------------------------------
  // _get_reward_and_done

  function Abs(x: int): nat {
    if x < 0 then -x else x
  }

  /** The sum of `|obs - last|` over all entries, in exact integers (the
      source widens to int32 first, so no byte wraps around). */
  function SumAbsDiff(obs: seq<int>, last: seq<int>): nat
    requires |obs| == |last|
    decreases |obs|
  {
    if obs == [] then 0
    else SumAbsDiff(obs[..|obs| - 1], last[..|last| - 1]) + Abs(obs[|obs| - 1] - last[|last| - 1])
  }

  /** `_get_reward_and_done`: `0.05 * mean(|obs - last|)` and never done. */
  function RewardAndDone(obs: seq<int>, last: seq<int>): (real, bool)
    requires |obs| == |last| && |obs| > 0
  {
    (0.05 * (SumAbsDiff(obs, last) as real / |obs| as real), false)
  }

  lemma {:induction false} SumAbsDiffZero(obs: seq<int>, last: seq<int>)
    requires |obs| == |last|
    ensures SumAbsDiff(obs, last) == 0 <==> obs == last
    decreases |obs|
  {
    if obs != [] {
      var n := |obs| - 1;
      SumAbsDiffZero(obs[..n], last[..n]);
      if obs[..n] == last[..n] && obs[n] == last[n] {
        assert obs == obs[..n] + [obs[n]] && last == last[..n] + [last[n]];
      }
      if obs == last {
        assert obs[..n] == last[..n];
      }
    }
  }

  lemma {:induction false} SumAbsDiffBound(obs: seq<int>, last: seq<int>)
    requires |obs| == |last|
    requires forall k :: 0 <= k < |obs| ==> IsByte(obs[k]) && IsByte(last[k])
    ensures SumAbsDiff(obs, last) <= 255 * |obs|
    decreases |obs|
  {
    if obs != [] {
      var n := |obs| - 1;
      SumAbsDiffBound(obs[..n], last[..n]);
    }
  }

  /** The facts about a mean the reward needs. */
  lemma MeanFacts(s: real, n: real, bound: real)
    requires s >= 0.0 && n > 0.0
    ensures s / n >= 0.0
    ensures s / n == 0.0 <==> s == 0.0
    ensures s <= bound * n ==> s / n <= bound
  {
    assert s == (s / n) * n;
  }

  /** The reward is never negative, it is 0 exactly for an unchanged frame,
      it is at most 0.05 * 255 on byte frames, and the episode is never
      done. */
  lemma RewardMeaning(obs: seq<int>, last: seq<int>)
    requires |obs| == |last| && |obs| > 0
    ensures RewardAndDone(obs, last).0 >= 0.0
    ensures RewardAndDone(obs, last).0 == 0.0 <==> obs == last
    ensures !RewardAndDone(obs, last).1
    ensures (forall k :: 0 <= k < |obs| ==> IsByte(obs[k]) && IsByte(last[k])) ==>
      RewardAndDone(obs, last).0 <= 0.05 * 255.0
  {
    SumAbsDiffZero(obs, last);
    var s := SumAbsDiff(obs, last);
    MeanFacts(s as real, |obs| as real, 255.0);
    if forall k :: 0 <= k < |obs| ==> IsByte(obs[k]) && IsByte(last[k]) {
      SumAbsDiffBound(obs, last);
    }
  }

  // ---------------------------------------------------------------------------
  // step and reset

  /** The console call `reset` makes. */
  datatype ConsoleCall = ResetSystem | LoadState(filename: string)

  /** `VibemulatorEnv`: the held controller message and the previous
      observation. `stateFile` is `None` for Python's `None`. */
  class Env {
    const stateFile: Option<string>
    var currentAction: InputState
    var lastObs: seq<int>

    ghost predicate Valid()
      reads this
    {
      |lastObs| == ObsLen
    }

    /** `__init__`: player 1 with nothing held, and a zero last
        observation. */
    constructor (stateFile: Option<string>)
      ensures this.stateFile == stateFile
      ensures currentAction == InputState(1, NoButtons)
      ensures lastObs == Zeros()
      ensures Valid()
    {
      this.stateFile := stateFile;
      currentAction := InputState(1, NoButtons);
      lastObs := Zeros();
    }

    /** Python's `not self.state_file`: no file, or the empty name. */
    predicate NoStateFile()
      reads this
    {
      stateFile.None? || stateFile.value == ""
    }

    /** `step`: holds the decoded action, observes `frame`, rewards the
        change from the last observation and keeps the new one. The episode
        is never done or truncated. */
    method Step(action: int, frame: Option<seq<int>>)
      returns (obs: seq<int>, reward: real, done: bool, truncated: bool)
      requires Valid()
      modifies this
      ensures currentAction == ActionToProto(action)
      ensures obs == Observe(frame)
      ensures (reward, done) == RewardAndDone(obs, old(lastObs))
      ensures !truncated
      ensures lastObs == obs && Valid()
    {
      currentAction := ActionToProto(action);
      obs := Observe(frame);
      ObserveShape(frame);
      var rd := RewardAndDone(obs, lastObs);
      reward, done := rd.0, rd.1;
      lastObs := obs;
      truncated := false;
    }

    /** `reset`: `ResetSystem` without a state file and `LoadState` of the
        file otherwise, whichever way the call ends; then it observes
        `frame` and keeps that observation. */
    method Reset(frame: Option<seq<int>>) returns (call: ConsoleCall, obs: seq<int>)
      modifies this
      ensures call == if old(NoStateFile()) then ResetSystem else LoadState(stateFile.value)
      ensures obs == Observe(frame)
      ensures lastObs == obs && Valid()
      ensures currentAction == old(currentAction)
    {
      if stateFile.None? || stateFile.value == "" {
        call := ResetSystem;
      } else {
        call := LoadState(stateFile.value);
      }
      obs := Observe(frame);
      ObserveShape(frame);
      lastObs := obs;
    }
  }
}
