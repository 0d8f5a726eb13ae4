/** The power manager for Tilera boards behind a PDU (power distribution
    unit): power-on is an OFF/ON command pair followed by a liveness probe,
    retried a bounded number of times; power-off is one OFF command.

    The PDU management script and the ping probe are the board's hardware,
    given as a `Hardware` oracle: whether the n-th command of this power
    manager raises, and the first line the n-th probe writes. The waits
    between commands and probes are not modelled. */
module TileraPdu {
  import opened Wrappers
  import Strings
  import Decimal
  import opened BaremetalTypes

  datatype Hardware = Hardware(commandFails: nat -> bool, probeLine: nat -> string)

  /** Whether command number `i` raises. */
  predicate CommandFails(hw: Hardware, i: nat)
  {
    hw.commandFails(i)
  }

  /** The first line probe number `i` writes. */
  function ProbeLine(hw: Hardware, i: nat): string
  {
    hw.probeLine(i)
  }

  /** What the board saw: a PDU command with its mode, or a probe. */
  datatype PduEvent = Command(mode: int) | Probe

  /** The end of a power operation: a state, or the exception of a PDU
      command that raised. */
  datatype PowerOutcome = Returned(state: TaskState) | CommandRaised

  datatype PduError = PduError(status: int, message: string)

  /** `str(PduError)`. */
  function ErrorString(e: PduError): string
  {
    Decimal.IntToString(e.status) + ": " + e.message
  }

  /** The probe's verdict on one output line: the line of `ping | grep
      Unreachable` is free of "Unreachable" exactly when the board answered. */
  predicate IsPowerOn(line: string)
  {
    Strings.Find(line, "Unreachable") == -1
  }

  predicate IsPowerOff(line: string)
  {
    Strings.Find(line, "Unreachable") != -1
  }

  /** The checks of the constructor: a missing PDU address, then a missing
      node id, raise PduError with status -1. */
  function CreateError(address: Option<string>, nodeId: Option<int>): (r: Option<PduError>)
    ensures r.Some? <==> address.None? || nodeId.None?
    ensures r.Some? ==> r.value.status == -1
    ensures address.None? ==> r == Some(PduError(-1, "address is None"))
    ensures address.Some? && nodeId.None? ==> r == Some(PduError(-1, "node_id is None"))
  {
    if address.None? then Some(PduError(-1, "address is None"))
    else if nodeId.None? then Some(PduError(-1, "node_id is None"))
    else None
  }

  // ---------------------------------------------------------------------
  // The reference behaviour of `_power_on`

  /** The number of power-on attempts: at least one, `tile_power_retry` when
      that is larger. */
  function Attempts(retry: int): (n: nat)
    ensures n >= 1 && n >= retry
    ensures n == 1 || n == retry
  {
    if retry > 1 then retry else 1
  }

  /** No command numbered `lo <= i < hi` raises. */
  predicate CommandsGoThrough(hw: Hardware, lo: nat, hi: nat)
  {
    forall i :: lo <= i < hi ==> !CommandFails(hw, i)
  }

  /** Every probe numbered `lo <= i < hi` finds the board off. */
  predicate ProbesOff(hw: Hardware, lo: nat, hi: int)
  {
    forall i :: lo <= i < hi ==> !IsPowerOn(ProbeLine(hw, i))
  }

  /** The first probe `i`, `k <= i < hi`, that finds the board on; `hi`
      when none does. */
  function FirstOn(hw: Hardware, k: nat, hi: nat): (j: nat)
    requires k <= hi
    ensures k <= j <= hi
    ensures forall i :: k <= i < j ==> !IsPowerOn(ProbeLine(hw, i))
    ensures j < hi ==> IsPowerOn(ProbeLine(hw, j))
    decreases hi - k
  {
    if k == hi then hi
    else if IsPowerOn(ProbeLine(hw, k)) then k
    else FirstOn(hw, k + 1, hi)
  }

  /** Cycle `k` of a run whose commands are numbered from `c0` raises: its
      OFF command (number `c0 + 2k`) or its ON command. */
  predicate CycleFails(hw: Hardware, c0: nat, k: nat)
  {
    CommandFails(hw, c0 + 2 * k) || CommandFails(hw, c0 + 2 * k + 1)
  }

  /** The first cycle `k`, `lo <= k < hi`, with a command that raises; `hi`
      when none has. */
  function FirstBadCycle(hw: Hardware, c0: nat, lo: nat, hi: nat): (b: nat)
    requires lo <= hi
    ensures lo <= b <= hi
    ensures forall k :: lo <= k < b ==> !CycleFails(hw, c0, k)
    ensures b < hi ==> CycleFails(hw, c0, b)
    decreases hi - lo
  {
    if lo == hi then hi
    else if CycleFails(hw, c0, lo) then lo
    else FirstBadCycle(hw, c0, lo + 1, hi)
  }

  /** A run of `_power_on`, summarised: the number of full OFF, ON, probe
      cycles, the number of commands issued in a cycle cut short by an
      exception (0 when none was), and the outcome. */
  datatype PowerOnRun = PowerOnRun(cycles: nat, cut: nat, outcome: PowerOutcome)

  /** What `_power_on` does when its commands are numbered from `c0` and its
      probes from `p0`: with N attempts and the first successful probe at
      attempt j (N if none), it runs j + 1 cycles and returns ACTIVE, or N
      cycles and returns ERROR; a command that raises cuts the run short
      right after that command. */
  function PowerOnSpec(hw: Hardware, c0: nat, p0: nat, retry: int): PowerOnRun
  {
    var n := Attempts(retry);
    var j := FirstOn(hw, p0, p0 + n) - p0;
    var rounds := if j < n then j + 1 else n;
    var b := FirstBadCycle(hw, c0, 0, rounds);
    if b < rounds then PowerOnRun(b, if CommandFails(hw, c0 + 2 * b) then 1 else 2, CommandRaised)
    else PowerOnRun(rounds, 0, Returned(if j < n then Active else Error))
  }

  /** `r` full power-on cycles: OFF, ON, probe. */
  function Cycles(off: int, on: int, r: nat): (es: seq<PduEvent>)
    ensures |es| == 3 * r
  {
    if r == 0 then [] else Cycles(off, on, r - 1) + [Command(off), Command(on), Probe]
  }

  /** The commands of a cycle cut short after `cut` of them. */
  function CutCommands(off: int, on: int, cut: nat): seq<PduEvent>
  {
    if cut == 0 then [] else if cut == 1 then [Command(off)] else [Command(off), Command(on)]
  }

  /** The events of a run, in order. */
  function RunEvents(run: PowerOnRun, off: int, on: int): seq<PduEvent>
  {
    Cycles(off, on, run.cycles) + CutCommands(off, on, run.cut)
  }

  function CommandCount(es: seq<PduEvent>): nat
  {
    if es == [] then 0 else CommandCount(es[..|es| - 1]) + (if es[|es| - 1].Command? then 1 else 0)
  }

  function ProbeCount(es: seq<PduEvent>): nat
  {
    if es == [] then 0 else ProbeCount(es[..|es| - 1]) + (if es[|es| - 1].Probe? then 1 else 0)
  }

  // ---------------------------------------------------------------------
  // The power manager object

  class Pdu {
    const address: string
    const nodeId: int
    const pduOff: int
    const pduOn: int
    const powerRetry: int
    const hw: Hardware

    /** The commands and probes so far, and how many of each. */
    var events: seq<PduEvent>
    var commands: nat
    var probes: nat

    /** The constructor once its checks have passed. */
    constructor(address: string, nodeId: int, pduOff: int, pduOn: int, powerRetry: int, hw: Hardware)
      ensures this.address == address && this.nodeId == nodeId
      ensures this.pduOff == pduOff && this.pduOn == pduOn && this.powerRetry == powerRetry
      ensures this.hw == hw
      ensures events == [] && commands == 0 && probes == 0
    {
      this.address := address;
      this.nodeId := nodeId;
      this.pduOff := pduOff;
      this.pduOn := pduOn;
      this.powerRetry := powerRetry;
      this.hw := hw;
      events := [];
      commands := 0;
      probes := 0;
    }

    /** `_power_mgr(mode)`: one run of the PDU management script; `ok` is
        false when it raised. */
    method PowerMgr(mode: int) returns (ok: bool)
      modifies this
      ensures ok == !CommandFails(hw, old(commands))
      ensures events == old(events) + [Command(mode)]
      ensures commands == old(commands) + 1 && probes == old(probes)
    {
      ok := !CommandFails(hw, commands);
      events := events + [Command(mode)];
      commands := commands + 1;
    }

    /** `is_power_on`: one probe. */
    method IsPowerOnProbe() returns (on: bool)
      modifies this
      ensures on == IsPowerOn(ProbeLine(hw, old(probes)))
      ensures events == old(events) + [Probe]
      ensures probes == old(probes) + 1 && commands == old(commands)
    {
      on := IsPowerOn(ProbeLine(hw, probes));
      events := events + [Probe];
      probes := probes + 1;
    }

    /** `_is_power_off`: one probe. */
    method IsPowerOffProbe() returns (off: bool)
      modifies this
      ensures off == IsPowerOff(ProbeLine(hw, old(probes)))
      ensures events == old(events) + [Probe]
      ensures probes == old(probes) + 1 && commands == old(commands)
    {
      off := IsPowerOff(ProbeLine(hw, probes));
      events := events + [Probe];
      probes := probes + 1;
    }

    /** The OFF command, the ON command and the wait that `_power_on` issues
        before each probe; `ok` is false when one of the commands raised,
        and then nothing follows it. */
    method PowerCycle() returns (ok: bool)
      modifies this
      ensures ok == (!CommandFails(hw, old(commands)) && !CommandFails(hw, old(commands) + 1))
      ensures ok ==> events == old(events) + [Command(pduOff), Command(pduOn)] && commands == old(commands) + 2
      ensures !ok ==> var cut := if CommandFails(hw, old(commands)) then 1 else 2;
        events == old(events) + CutCommands(pduOff, pduOn, cut) && commands == old(commands) + cut
      ensures probes == old(probes)
    {
      ok := PowerMgr(pduOff);
      if ok {
        ok := PowerMgr(pduOn);
      }
    }

    /** One round of `_power_on`: the OFF and ON commands, the wait, and the
        probe that decides whether the board came up. The probe is not
        reached when a command raised. */
    method Round() returns (ok: bool, on: bool)
      modifies this
      ensures ok == (!CommandFails(hw, old(commands)) && !CommandFails(hw, old(commands) + 1))
      ensures ok ==> && on == IsPowerOn(ProbeLine(hw, old(probes)))
                     && events == old(events) + [Command(pduOff), Command(pduOn), Probe]
                     && commands == old(commands) + 2 && probes == old(probes) + 1
      ensures !ok ==> var cut := if CommandFails(hw, old(commands)) then 1 else 2;
        && events == old(events) + CutCommands(pduOff, pduOn, cut)
        && commands == old(commands) + cut && probes == old(probes)
    {
      on := false;
      ok := PowerCycle();
      if ok {
        on := IsPowerOnProbe();
      }
    }

    /** `_power_on`: the first round, then the retry loop. */
    method PowerOn() returns (out: PowerOutcome)
      modifies this
      ensures var run := PowerOnSpec(hw, old(commands), old(probes), powerRetry);
        && out == run.outcome
        && events == old(events) + RunEvents(run, pduOff, pduOn)
        && commands == old(commands) + 2 * run.cycles + run.cut
        && probes == old(probes) + run.cycles
    {
      ghost var c0 := commands;
      ghost var p0 := probes;
      ghost var e0 := events;
      var ok, on := Round();
      if !ok {
        PowerOnCutShort(hw, c0, p0, powerRetry, 0, pduOff, pduOn);
        assert e0 + Cycles(pduOff, pduOn, 0) == e0;
        return CommandRaised;
      }
      NextCycle(e0, pduOff, pduOn, 1);
      out := Retry(c0, p0, e0, on);
    }

    /** The `while not self.is_power_on()` loop of `_power_on`, entered after
        `count` rounds (one, on entry) that all went through; `on` is the
        verdict of the last probe. */
    method Retry(ghost c0: nat, ghost p0: nat, ghost e0: seq<PduEvent>, on0: bool) returns (out: PowerOutcome)
      modifies this
      requires 1 <= Attempts(powerRetry)
      requires commands == c0 + 2 && probes == p0 + 1
      requires events == e0 + Cycles(pduOff, pduOn, 1)
      requires !CommandFails(hw, c0) && !CommandFails(hw, c0 + 1)
      requires on0 == IsPowerOn(ProbeLine(hw, p0))
      ensures var run := PowerOnSpec(hw, c0, p0, powerRetry);
        && out == run.outcome
        && events == e0 + RunEvents(run, pduOff, pduOn)
        && commands == c0 + 2 * run.cycles + run.cut
        && probes == p0 + run.cycles
    {
      ghost var n := Attempts(powerRetry);
      var count := 1;
      var on := on0;
      var ok;
      while !on
        invariant 1 <= count <= n
        invariant commands == c0 + 2 * count && probes == p0 + count
        invariant events == e0 + Cycles(pduOff, pduOn, count)
        invariant CommandsGoThrough(hw, c0, c0 + 2 * count)
        invariant ProbesOff(hw, p0, p0 + count - 1)
        invariant on == IsPowerOn(ProbeLine(hw, p0 + count - 1))
        decreases n - count
      {
        count := count + 1;
        if count > powerRetry {
          PowerOnGivesUp(hw, c0, p0, powerRetry, pduOff, pduOn);
          return Returned(Error);
        }
        ok, on := Round();
        if !ok {
          PowerOnCutShort(hw, c0, p0, powerRetry, count - 1, pduOff, pduOn);
          CutTrace(e0, pduOff, pduOn, count - 1, if CommandFails(hw, c0 + 2 * (count - 1)) then 1 else 2);
          return CommandRaised;
        }
        NextCycle(e0, pduOff, pduOn, count);
      }
      PowerOnSucceedsAt(hw, c0, p0, powerRetry, count, pduOff, pduOn);
      return Returned(Active);
    }

    /** `_power_off`: an exception from the command is caught and reported
        as ERROR. */
    method PowerOff() returns (state: TaskState)
      modifies this
      ensures state == if CommandFails(hw, old(commands)) then Error else Deleted
      ensures events == old(events) + [Command(pduOff)]
      ensures commands == old(commands) + 1 && probes == old(probes)
    {
      var ok := PowerMgr(pduOff);
      if !ok {
        return Error;
      }
      return Deleted;
    }

    /** `activate_node`. */
    method ActivateNode() returns (out: PowerOutcome)
      modifies this
      ensures var run := PowerOnSpec(hw, old(commands), old(probes), powerRetry);
        out == run.outcome && events == old(events) + RunEvents(run, pduOff, pduOn)
    {
      out := PowerOn();
    }

    /** `deactivate_node`. */
    method DeactivateNode() returns (state: TaskState)
      modifies this
      ensures state == if CommandFails(hw, old(commands)) then Error else Deleted
      ensures events == old(events) + [Command(pduOff)]
    {
      state := PowerOff();
    }

    /** `reboot_node`: power off, then power on; the power-off result is
        dropped. */
    method RebootNode() returns (out: PowerOutcome)
      modifies this
      ensures var run := PowerOnSpec(hw, old(commands) + 1, old(probes), powerRetry);
        out == run.outcome && events == old(events) + [Command(pduOff)] + RunEvents(run, pduOff, pduOn)
    {
      var _ := PowerOff();
      out := PowerOn();
    }
  }

  // ---------------------------------------------------------------------
  // The loop of `_power_on` against its reference behaviour

  /** The trace of a run cut short after `b` full cycles. */
  lemma CutTrace(e0: seq<PduEvent>, off: int, on: int, b: nat, cut: nat)
    ensures (e0 + Cycles(off, on, b)) + CutCommands(off, on, cut) == e0 + (Cycles(off, on, b) + CutCommands(off, on, cut))
  {
  }

  /** One more full cycle on the trace. */
  lemma NextCycle(e0: seq<PduEvent>, off: int, on: int, c: nat)
    requires c >= 1
    ensures (e0 + Cycles(off, on, c - 1)) + [Command(off), Command(on), Probe] == e0 + Cycles(off, on, c)
  {
  }

  /** The first probe that finds the board on is the first one the loop saw
      succeed. */
  lemma FirstOnIs(hw: Hardware, p0: nat, j: nat, n: nat)
    requires j <= n
    requires ProbesOff(hw, p0, p0 + j)
    requires j < n ==> IsPowerOn(ProbeLine(hw, p0 + j))
    ensures FirstOn(hw, p0, p0 + n) == p0 + j
  {
  }

  lemma FirstBadCycleIs(hw: Hardware, c0: nat, b: nat, n: nat)
    requires b <= n
    requires forall k :: 0 <= k < b ==> !CycleFails(hw, c0, k)
    requires b < n ==> CycleFails(hw, c0, b)
    ensures FirstBadCycle(hw, c0, 0, n) == b
  {
  }

  /** Cycles before `b` have no failing command when no command before
      number `c0 + 2b` failed. */
  lemma NoBadCycle(hw: Hardware, c0: nat, b: nat)
    requires CommandsGoThrough(hw, c0, c0 + 2 * b)
    ensures forall k :: 0 <= k < b ==> !CycleFails(hw, c0, k)
  {
    forall k | 0 <= k < b
      ensures !CycleFails(hw, c0, k)
    {
      assert !CommandFails(hw, c0 + 2 * k) && !CommandFails(hw, c0 + 2 * k + 1);
    }
  }

  /** When the first probe that finds the board on is the j-th (counting
      from one), j is within the attempts and no command raises first,
      `_power_on` returns ACTIVE after exactly j cycles. */
  lemma PowerOnSucceedsAt(hw: Hardware, c0: nat, p0: nat, retry: int, j: nat, off: int, on: int)
    requires 1 <= j <= Attempts(retry)
    requires ProbesOff(hw, p0, p0 + j - 1)
    requires IsPowerOn(ProbeLine(hw, p0 + j - 1))
    requires CommandsGoThrough(hw, c0, c0 + 2 * j)
    ensures PowerOnSpec(hw, c0, p0, retry) == PowerOnRun(j, 0, Returned(Active))
    ensures RunEvents(PowerOnSpec(hw, c0, p0, retry), off, on) == Cycles(off, on, j)
  {
    FirstOnIs(hw, p0, j - 1, Attempts(retry));
    NoBadCycle(hw, c0, j);
    FirstBadCycleIs(hw, c0, j, j);
  }

  /** When no probe finds the board on and no command raises, `_power_on`
      returns ERROR after exactly max(`tile_power_retry`, 1) cycles. */
  lemma PowerOnGivesUp(hw: Hardware, c0: nat, p0: nat, retry: int, off: int, on: int)
    requires CommandsGoThrough(hw, c0, c0 + 2 * Attempts(retry))
    requires ProbesOff(hw, p0, p0 + Attempts(retry))
    ensures PowerOnSpec(hw, c0, p0, retry) == PowerOnRun(Attempts(retry), 0, Returned(Error))
    ensures RunEvents(PowerOnSpec(hw, c0, p0, retry), off, on) == Cycles(off, on, Attempts(retry))
  {
    var n := Attempts(retry);
    FirstOnIs(hw, p0, n, n);
    NoBadCycle(hw, c0, n);
    FirstBadCycleIs(hw, c0, n, n);
  }

  /** When a command of cycle `b` raises after every earlier cycle went
      through and every earlier probe found the board off, `_power_on` lets
      the exception through right after that command. */
  lemma PowerOnCutShort(hw: Hardware, c0: nat, p0: nat, retry: int, b: nat, off: int, on: int)
    requires b < Attempts(retry)
    requires CommandsGoThrough(hw, c0, c0 + 2 * b)
    requires CommandFails(hw, c0 + 2 * b) || CommandFails(hw, c0 + 2 * b + 1)
    requires ProbesOff(hw, p0, p0 + b)
    ensures PowerOnSpec(hw, c0, p0, retry) ==
      PowerOnRun(b, if CommandFails(hw, c0 + 2 * b) then 1 else 2, CommandRaised)
    ensures RunEvents(PowerOnSpec(hw, c0, p0, retry), off, on) ==
      Cycles(off, on, b) + CutCommands(off, on, if CommandFails(hw, c0 + 2 * b) then 1 else 2)
  {
    var n := Attempts(retry);
    var j := FirstOn(hw, p0, p0 + n) - p0;
    var rounds := if j < n then j + 1 else n;
    assert j >= b;
    NoBadCycle(hw, c0, b);
    FirstBadCycleIs(hw, c0, b, rounds);
  }

  // ---------------------------------------------------------------------
  // Properties of the reference behaviour

  lemma CountsSnoc(es: seq<PduEvent>, e: PduEvent)
    ensures CommandCount(es + [e]) == CommandCount(es) + (if e.Command? then 1 else 0)
    ensures ProbeCount(es + [e]) == ProbeCount(es) + (if e.Probe? then 1 else 0)
  {
    assert (es + [e])[..|es|] == es;
  }

  lemma {:induction false} CyclesCounts(off: int, on: int, r: nat)
    ensures CommandCount(Cycles(off, on, r)) == 2 * r
    ensures ProbeCount(Cycles(off, on, r)) == r
  {
    if r > 0 {
      var prev := Cycles(off, on, r - 1);
      CyclesCounts(off, on, r - 1);
      CountsSnoc(prev, Command(off));
      CountsSnoc(prev + [Command(off)], Command(on));
      CountsSnoc(prev + [Command(off)] + [Command(on)], Probe);
      assert Cycles(off, on, r) == prev + [Command(off)] + [Command(on)] + [Probe];
    }
  }

  /** The command and probe numbers a run consumes (the counters the power
      manager advances) are the commands and probes among its events. */
  lemma RunCounts(run: PowerOnRun, off: int, on: int)
    requires run.cut <= 2
    ensures CommandCount(RunEvents(run, off, on)) == 2 * run.cycles + run.cut
    ensures ProbeCount(RunEvents(run, off, on)) == run.cycles
  {
    var c := Cycles(off, on, run.cycles);
    CyclesCounts(off, on, run.cycles);
    if run.cut == 0 {
      assert RunEvents(run, off, on) == c;
    } else {
      CountsSnoc(c, Command(off));
      if run.cut == 2 {
        assert RunEvents(run, off, on) == (c + [Command(off)]) + [Command(on)];
        CountsSnoc(c + [Command(off)], Command(on));
      }
    }
  }

  /** Fewer cycles are a prefix of more. */
  lemma {:induction false} CyclesPrefix(off: int, on: int, a: nat, b: nat)
    requires a <= b
    ensures Cycles(off, on, a) <= Cycles(off, on, b)
    decreases b
  {
    if a < b {
      CyclesPrefix(off, on, a, b - 1);
    }
  }

  /** Whatever the hardware does, a run of `_power_on` stops within
      max(`tile_power_retry`, 1) cycles, cuts at most one cycle short, and
      its events are a prefix of that many full OFF, ON, probe cycles: the
      outlet is always turned off before on, and never probed more often. */
  lemma PowerOnBounded(hw: Hardware, c0: nat, p0: nat, off: int, on: int, retry: int)
    ensures var run := PowerOnSpec(hw, c0, p0, retry);
      && run.cut <= 2
      && (run.cut == 0 <==> run.outcome.Returned?)
      && run.cycles + (if run.cut > 0 then 1 else 0) <= Attempts(retry)
      && RunEvents(run, off, on) <= Cycles(off, on, Attempts(retry))
  {
    var run := PowerOnSpec(hw, c0, p0, retry);
    var n := Attempts(retry);
    if run.cut > 0 {
      assert RunEvents(run, off, on) <= Cycles(off, on, run.cycles + 1);
      CyclesPrefix(off, on, run.cycles + 1, n);
    } else {
      CyclesPrefix(off, on, run.cycles, n);
    }
  }

  /** `_power_on` returns ACTIVE only when a probe within the attempts found
      the board on after every earlier probe found it off, and then that
      probe was its last action. */
  lemma PowerOnActiveMeansOn(hw: Hardware, c0: nat, p0: nat, retry: int)
    ensures var run := PowerOnSpec(hw, c0, p0, retry);
      run.outcome == Returned(Active) ==>
        && run.cycles >= 1 && run.cut == 0
        && IsPowerOn(ProbeLine(hw, p0 + run.cycles - 1))
        && forall i :: p0 <= i < p0 + run.cycles - 1 ==> !IsPowerOn(ProbeLine(hw, i))
  {
  }

  /** `_is_power_off` is the exact negation of `is_power_on`, an empty probe
      line means on, and a line that reports the board unreachable means
      off. */
  lemma ProbeVerdicts(line: string, a: string, b: string)
    ensures IsPowerOff(line) <==> !IsPowerOn(line)
    ensures IsPowerOn("")
    ensures IsPowerOff(a + "Unreachable" + b)
  {
    var s := a + "Unreachable" + b;
    assert s[|a|..|a| + |"Unreachable"|] == "Unreachable";
    assert Strings.MatchAt(s, "Unreachable", |a|);
    Strings.FindSpec(s, "Unreachable");
    Strings.FindSpec("", "Unreachable");
  }

  /** The status can be read back from `str(PduError)`: it is everything
      before the first colon. */
  lemma ErrorStringStatus(e: PduError)
    ensures var s := ErrorString(e);
      var k := Strings.IndexOf(s, ':');
      k == |Decimal.IntToString(e.status)| && Decimal.ParseInt(s[..k]) == Some(e.status)
  {
    var digits := Decimal.IntToString(e.status);
    var s := ErrorString(e);
    assert ':' !in digits by {
      var mag := Decimal.NatToString(if e.status < 0 then -e.status else e.status);
      Decimal.NatToStringDigits(if e.status < 0 then -e.status else e.status);
      assert digits == mag || digits == "-" + mag;
      assert forall i :: 0 <= i < |mag| ==> mag[i] != ':';
    }
    assert s == digits + [':'] + (" " + e.message);
    Strings.IndexOfAfter(digits, ':', " " + e.message);
    assert s[..|digits|] == digits;
    Decimal.ParseIntToString(e.status);
  }
}
