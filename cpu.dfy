/** The 6502's reset and its per-cycle clock: an instruction is fetched
    when the cycle count of the previous one has run out, and its cycles are
    then counted down one per clock. What an instruction does is not part of
    this model: each entry of the lookup table carries its effect as an
    arbitrary function of the CPU's registers. Bus reads are the function
    `read`. */
module Cpu {
  import opened Word

  /** The CPU's registers and the fields of the fetch cycle. `cycles` is a
      Go `int`, kept as an unbounded integer. */
  datatype Regs = Regs(PC: Addr, SP: bv8, A: bv8, X: bv8, Y: bv8, P: bv8,
                       opcode: bv8, cycles: int, addrAbs: Addr)

  /** A lookup-table entry: whether it has an `Operate` (a nil `Operate`
      marks an invalid opcode), its base cycle count, and the combined effect
      of its addressing mode and operation. */
  datatype Instruction = Instruction(valid: bool, cycles: int, run: Regs -> Regs)

  /** `Reset`: the PC from the vector at $FFFC (low byte) and $FFFD (high
      byte), A, X and Y cleared, SP at $FD, the status register at the flag
      `u` (the `U` constant is not part of this model), and 8 cycles to
      wait. */
  function ResetRegs(r: Regs, read: Addr -> bv8, u: bv8): Regs {
    r.(addrAbs := 0xFFFC, PC := read(0xFFFD) as int * 0x100 + read(0xFFFC) as int,
       A := 0, X := 0, Y := 0, SP := 0xFD, P := u, cycles := 8)
  }

  /** The fetch: the opcode at PC, and PC one further (wrapping at 16 bits). */
  function Fetch(r: Regs, read: Addr -> bv8): Regs {
    r.(opcode := read(r.PC), PC := (r.PC + 1) % 0x10000)
  }

  /** `Clock`: while cycles remain, one is used up; at 0 the next opcode is
      fetched, and a valid one loads its cycle count, runs, and uses up its
      first cycle. An invalid opcode only moves the PC on. */
  function ClockRegs(r: Regs, read: Addr -> bv8, lookup: seq<Instruction>): Regs
    requires |lookup| == 256
  {
    if r.cycles != 0 then r.(cycles := r.cycles - 1)
    else
      var f := Fetch(r, read);
      var ins := lookup[f.opcode];
      if !ins.valid then f
      else
        var e := ins.run(f.(cycles := ins.cycles));
        e.(cycles := e.cycles - 1)
  }

  /** `n` clocks. */
  function ClocksRegs(r: Regs, read: Addr -> bv8, lookup: seq<Instruction>, n: nat): Regs
    requires |lookup| == 256
    decreases n
  {
    if n == 0 then r else ClocksRegs(ClockRegs(r, read, lookup), read, lookup, n - 1)
  }

  /** After a reset the PC is the little-endian vector at $FFFC, and the
      other registers take their reset values. */
  lemma ResetVector(r: Regs, read: Addr -> bv8, u: bv8)
    ensures var s := ResetRegs(r, read, u);
      && s.PC % 0x100 == read(0xFFFC) as int && s.PC / 0x100 == read(0xFFFD) as int
      && s.A == 0 && s.X == 0 && s.Y == 0 && s.SP == 0xFD && s.cycles == 8
      && s.opcode == r.opcode
  {
  }

  /** With cycles left a clock touches nothing but the count: no fetch, and
      the PC stays. */
  lemma Busy(r: Regs, read: Addr -> bv8, lookup: seq<Instruction>)
    requires |lookup| == 256 && r.cycles != 0
    ensures ClockRegs(r, read, lookup) == r.(cycles := r.cycles - 1)
  {
  }

  /** An invalid opcode is fetched and skipped: the PC moves one on, and the
      cycle count stays 0, so the next clock fetches again. */
  lemma InvalidOpcode(r: Regs, read: Addr -> bv8, lookup: seq<Instruction>)
    requires |lookup| == 256 && r.cycles == 0 && !lookup[read(r.PC)].valid
    ensures var s := ClockRegs(r, read, lookup);
      && s.PC == (r.PC + 1) % 0x10000 && s.cycles == 0 && s.opcode == read(r.PC)
      && s.(opcode := 0, PC := 0) == r.(opcode := 0, PC := 0)
  {
  }

  /** A valid opcode runs on the fetched state with its cycle count loaded;
      if it leaves the count alone, one cycle is then used up. */
  lemma ValidOpcode(r: Regs, read: Addr -> bv8, lookup: seq<Instruction>)
    requires |lookup| == 256 && r.cycles == 0 && lookup[read(r.PC)].valid
    ensures var ins := lookup[read(r.PC)];
      var e := ins.run(Fetch(r, read).(cycles := ins.cycles));
      && ClockRegs(r, read, lookup) == e.(cycles := e.cycles - 1)
      && (e.cycles == ins.cycles ==> ClockRegs(r, read, lookup).cycles == ins.cycles - 1)
  {
  }

  /** `k` clocks with `k` cycles still to go bring the count to 0 and change
      nothing else; in particular the 8 clocks after a reset leave the PC at
      the reset vector. */
  lemma {:induction false} CountOut(r: Regs, read: Addr -> bv8, lookup: seq<Instruction>, k: nat)
    requires |lookup| == 256 && r.cycles == k
    ensures ClocksRegs(r, read, lookup, k) == r.(cycles := 0)
    decreases k
  {
    if k > 0 {
      Busy(r, read, lookup);
      CountOut(r.(cycles := k - 1), read, lookup, k - 1);
    }
  }

  /** An instruction that leaves the cycle count alone takes exactly its
      cycle count in clocks: after that many clocks from a fetch the CPU is
      ready to fetch again. */
  lemma OneInstruction(r: Regs, read: Addr -> bv8, lookup: seq<Instruction>)
    requires |lookup| == 256 && r.cycles == 0
    requires var ins := lookup[read(r.PC)];
      ins.valid && ins.cycles >= 1 && ins.run(Fetch(r, read).(cycles := ins.cycles)).cycles == ins.cycles
    ensures var ins := lookup[read(r.PC)];
      var e := ins.run(Fetch(r, read).(cycles := ins.cycles));
      ClocksRegs(r, read, lookup, ins.cycles) == e.(cycles := 0)
  {
    var ins := lookup[read(r.PC)];
    var e := ins.run(Fetch(r, read).(cycles := ins.cycles));
    ValidOpcode(r, read, lookup);
    var s := ClockRegs(r, read, lookup);
    CountOut(s, read, lookup, ins.cycles - 1);
    assert s.(cycles := 0) == e.(cycles := 0);
  }

  /** `CPU`: the registers and the fetch fields, and the lookup table. */
  class CPU {
    var PC: Addr
    var SP: bv8
    var A: bv8
    var X: bv8
    var Y: bv8
    var P: bv8
    var opcode: bv8
    var cycles: int
    var addrAbs: Addr
    const lookup: seq<Instruction>

    function State(): Regs
      reads this
    {
      Regs(PC, SP, A, X, Y, P, opcode, cycles, addrAbs)
    }

    /** `New`: every register 0, with the given lookup table. */
    constructor (table: seq<Instruction>)
      requires |table| == 256
      ensures State() == Regs(0, 0, 0, 0, 0, 0, 0, 0, 0) && lookup == table
    {
      PC, SP, A, X, Y, P := 0, 0, 0, 0, 0, 0;
      opcode, cycles, addrAbs := 0, 0, 0;
      lookup := table;
    }

    method Reset(read: Addr -> bv8, u: bv8)
      modifies this
      ensures State() == ResetRegs(old(State()), read, u)
    {
      addrAbs := 0xFFFC;
      var lo := read(addrAbs);
      var hi := read(addrAbs + 1);
      PC := hi as int * 0x100 + lo as int;
      A := 0;
      X := 0;
      Y := 0;
      SP := 0xFD;
      P := u;
      cycles := 8;
    }

    method Clock(read: Addr -> bv8)
      requires |lookup| == 256
      modifies this
      ensures State() == ClockRegs(old(State()), read, lookup)
    {
      if cycles == 0 {
        opcode := read(PC);
        PC := (PC + 1) % 0x10000;
        var instr := lookup[opcode];
        if !instr.valid {
          return;
        }
        cycles := instr.cycles;
        Load(instr.run(State()));
      }
      cycles := cycles - 1;
    }

    /** Takes over the registers an instruction's effect leaves. */
    method Load(e: Regs)
      modifies this
      ensures State() == e
    {
      PC, SP, A, X, Y, P := e.PC, e.SP, e.A, e.X, e.Y, e.P;
      opcode, cycles, addrAbs := e.opcode, e.cycles, e.addrAbs;
    }
  }
}
