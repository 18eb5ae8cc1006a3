/** The fluidics handler: it keeps a mirror of the device state (valve, pump
    and routing vector), finds the device by its heartbeat, and moves it
    from state to state with the command-and-verify exchange of the
    Protocol module. The serial connection is abstracted into the lines
    written to it and the replies the device has yet to give. */
module Handler {
  import opened Text
  import opened Outcomes
  import opened Protocol
  import opened Timing
  import Routing

  /** The mirror of a freshly built handler: valve 0, pump 0 and an all-zero
      routing vector. */
  function PowerOn(): Mirror {
    Mirror(0, 0, ZeroVector(Routing.Slots))
  }

  /** The reagent the handler selects once connected unless told otherwise. */
  const DefaultState := "PFA(half-MeAc)"

  /** The read timeout of a freshly opened port, and the one set once the
      device is confirmed. */
  const OpenTimeout: real := 0.5
  const ConnectedTimeout: real := 10.0

  // ---------------------------------------------------------------------
  // Heartbeat
  // ---------------------------------------------------------------------

  /** The ping loop of `get_heartbeat` and `connect`: write a ping, read a
      reply, and stop at the first non-empty reply or when the replies run
      out (the timeout). Returns the reply that ended the loop and the
      number of pings written. */
  method Poll(polls: seq<string>) returns (reply: string, pings: nat)
    ensures reply == FirstReply(polls)
    ensures pings == PollCount(polls)
  {
    var noTimeout := true;
    var i := 0;
    reply := "";
    pings := 0;
    while noTimeout
      invariant noTimeout ==> i == 0 || i < |polls|
      invariant noTimeout ==> pings == i
      invariant noTimeout ==> i <= |polls| && FirstReply(polls[i..]) == FirstReply(polls)
      invariant noTimeout ==> i <= |polls| && i + PollCount(polls[i..]) == PollCount(polls)
      invariant !noTimeout ==> reply == FirstReply(polls) && pings == PollCount(polls)
      decreases noTimeout, |polls| - i
    {
      ghost var rest := polls[i..];
      pings := pings + 1;
      reply := if i < |polls| then polls[i] else "";
      i := i + 1;
      if |reply| > 0 {
        noTimeout := false;
      } else if i >= |polls| {
        noTimeout := false;
      } else {
        assert rest[1..] == polls[i..];
      }
    }
  }

  /** `get_heartbeat`: whether the port answers the ping with exactly the
      connect code; a port that cannot be opened answers nothing. */
  method GetHeartbeat(link: PortLink, code: string) returns (alive: bool)
    ensures alive == Heartbeat(link, code)
  {
    if link.Unavailable? {
      return false;
    }
    var reply, _ := Poll(link.polls);
    alive := reply == code;
  }

  // ---------------------------------------------------------------------
  // Clean-up recipe
  // ---------------------------------------------------------------------

  /** The calls that flush one reagent line. */
  function LineScript(name: string, timePerLine: int, speed: int): seq<Event> {
    [PumpCall(0)] + [ValveCall(name, 0)] + [PumpCall(speed)] + Wait(timePerLine)
  }

  /** Flushing the given reagent lines in order. */
  function LinesScript(names: seq<string>, timePerLine: int, speed: int): seq<Event>
    decreases |names|
  {
    if names == [] then []
    else LinesScript(names[..|names| - 1], timePerLine, speed) + LineScript(names[|names| - 1], timePerLine, speed)
  }

  /** The start of `clean`: flush the imaging line to waste for five
      minutes, then stop the pump and turn the stage valve back. */
  function RinseScript(speed: int): seq<Event> {
    [PumpCall(0)] + [ValveCall("Image", 1)] + [PumpCall(speed)] + Wait(5 * 60)
      + [PumpCall(0)] + [ValveCall("Image", 0)]
  }

  /** `clean`: the rinse, then every reagent line in table order, then stop
      the pump. */
  function CleanScript(timePerLine: int, speed: int): seq<Event> {
    RinseScript(speed) + LinesScript(Routing.Names(), timePerLine, speed) + [PumpCall(0)]
  }

  /** Cleaning is made of handler calls and waits only. */
  lemma CleanPerformable(timePerLine: int, speed: int)
    ensures Performable(CleanScript(timePerLine, speed))
  {
    LinesPerformable(Routing.Names(), timePerLine, speed);
    var rinse := [PumpCall(0)] + [ValveCall("Image", 1)] + [PumpCall(speed)];
    PerformableConcat(rinse, Wait(5 * 60));
    PerformableConcat(rinse + Wait(5 * 60), [PumpCall(0)] + [ValveCall("Image", 0)]);
    PerformableConcat(RinseScript(speed), LinesScript(Routing.Names(), timePerLine, speed));
    PerformableConcat(RinseScript(speed) + LinesScript(Routing.Names(), timePerLine, speed), [PumpCall(0)]);
  }

  lemma {:induction false} LinesPerformable(names: seq<string>, timePerLine: int, speed: int)
    ensures Performable(LinesScript(names, timePerLine, speed))
    decreases |names|
  {
    if names != [] {
      LinesPerformable(names[..|names| - 1], timePerLine, speed);
      var calls := [PumpCall(0)] + [ValveCall(names[|names| - 1], 0)] + [PumpCall(speed)];
      PerformableConcat(calls, Wait(timePerLine));
      PerformableConcat(LinesScript(names[..|names| - 1], timePerLine, speed), calls + Wait(timePerLine));
    }
  }

  /** Flushing a longer run of lines extends the history of a shorter one. */
  lemma {:induction false} LinesScriptPrefix(names: seq<string>, i: nat, timePerLine: int, speed: int)
    requires i <= |names|
    ensures LinesScript(names[..i], timePerLine, speed) <= LinesScript(names, timePerLine, speed)
    decreases |names|
  {
    if i < |names| {
      var init := names[..|names| - 1];
      assert names[..i] == init[..i];
      LinesScriptPrefix(init, i, timePerLine, speed);
      assert LinesScript(names, timePerLine, speed) == LinesScript(init, timePerLine, speed) + LineScript(names[|names| - 1], timePerLine, speed);
    } else {
      assert names[..i] == names;
    }
  }

  /** Every reagent line is flushed with the valve at 0 and the pump at the
      cleaning speed. */
  lemma {:induction false} LinesScriptVisits(names: seq<string>, k: nat, timePerLine: int, speed: int)
    requires k < |names|
    ensures exists j :: (0 <= j && j + 1 < |LinesScript(names, timePerLine, speed)| &&
      LinesScript(names, timePerLine, speed)[j] == ValveCall(names[k], 0) &&
      LinesScript(names, timePerLine, speed)[j + 1] == PumpCall(speed))
    decreases |names|
  {
    var init := names[..|names| - 1];
    var head := LinesScript(init, timePerLine, speed);
    var line := LineScript(names[|names| - 1], timePerLine, speed);
    assert LinesScript(names, timePerLine, speed) == head + line;
    if k == |names| - 1 {
      assert (head + line)[|head| + 1] == ValveCall(names[k], 0);
      assert (head + line)[|head| + 2] == PumpCall(speed);
    } else {
      LinesScriptVisits(init, k, timePerLine, speed);
      var j :| 0 <= j && j + 1 < |head| && head[j] == ValveCall(init[k], 0) && head[j + 1] == PumpCall(speed);
      assert (head + line)[j] == head[j] && (head + line)[j + 1] == head[j + 1];
    }
  }

  /** Replaying the flush of a non-empty run of lines leaves the pump
      running on the last line, with the valve at 0. */
  lemma LinesScriptEnds(m: Mirror, names: seq<string>, timePerLine: int, speed: int)
    requires names != [] && names[|names| - 1] in Routing.Table()
    ensures Replay(m, LinesScript(names, timePerLine, speed)) ==
            Mirror(0, speed, Routing.Table()[names[|names| - 1]])
  {
    var init := names[..|names| - 1];
    var name := names[|names| - 1];
    var m1 := Replay(m, LinesScript(init, timePerLine, speed));
    ReplayConcat(m, LinesScript(init, timePerLine, speed), LineScript(name, timePerLine, speed));
    var calls := [PumpCall(0)] + [ValveCall(name, 0)] + [PumpCall(speed)];
    ReplayConcat(m1, calls, Wait(timePerLine));
    ReplayWait(Replay(m1, calls), timePerLine);
    assert calls[..2] == [PumpCall(0)] + [ValveCall(name, 0)];
    assert calls[..2][..1] == [PumpCall(0)];
  }

  /** Cleaning ends with the pump stopped, the valve at 0 and the routing on
      the last table line, Cleave, whatever state it started from. */
  lemma CleanEndsIdle(m: Mirror, timePerLine: int, speed: int)
    ensures Replay(m, CleanScript(timePerLine, speed)) == Mirror(0, 0, [0, 1, 1, 12, 0])
  {
    var names := Routing.Names();
    var script := CleanScript(timePerLine, speed);
    var body := script[..|script| - 1];
    assert script == body + [PumpCall(0)];
    var head := RinseScript(speed);
    assert body == head + LinesScript(names, timePerLine, speed);
    ReplayConcat(m, head, LinesScript(names, timePerLine, speed));
    Routing.TableAt(|Routing.Entries| - 1);
    LinesScriptEnds(Replay(m, head), names, timePerLine, speed);
  }

  // ---------------------------------------------------------------------
  // The handler
  // ---------------------------------------------------------------------

  class FluidicsHandler {
    /** The mirror of the device state: valvestate, pumpstate, titanxstates. */
    var valve: int
    var pump: int
    var routing: seq<int>
    /** The attempt budget of one handshake. */
    const handshakes: int
    /** Where every call on the handler, and every wait, is recorded. */
    const log: Log
    /** The port the device was found on, once connected. */
    var port: Option<string>
    /** The read timeout of the connection, in seconds. */
    var timeout: real
    /** Lines written to the device, without their '\n'. */
    var written: seq<string>
    /** The device's answers to status queries that have not been read. */
    var replies: seq<string>

    function State(): Mirror
      reads this
    {
      Mirror(valve, pump, routing)
    }

    /** The fields `__init__` sets before it connects. */
    constructor (handshakes: int, log: Log, replies: seq<string>)
      ensures State() == PowerOn()
      ensures this.handshakes == handshakes && this.log == log
      ensures port == None && written == [] && this.replies == replies
    {
      valve := 0;
      pump := 0;
      routing := ZeroVector(Routing.Slots);
      this.handshakes := handshakes;
      this.log := log;
      port := None;
      timeout := OpenTimeout;
      written := [];
      this.replies := replies;
    }

    /** `connect`: probe the candidate ports; with exactly one responder,
        open it, ping it again and accept it only if it answers with the
        code. `probe` says how each port answers discovery, `reopen` what
        the chosen port answers once opened. */
    method Connect(comport: Option<string>, code: string, probe: string -> PortLink, reopen: seq<string>)
      returns (outcome: Outcome)
      modifies this`port, this`timeout, this`written
      ensures State() == old(State()) && replies == old(replies)
      ensures outcome.Pass? ==> port.Some? && timeout == ConnectedTimeout
      ensures |Responders(Candidates(comport), code, probe)| == 0 ==>
        outcome == Fail(NoDeviceFound) && port == old(port) && written == old(written)
      ensures |Responders(Candidates(comport), code, probe)| > 1 ==>
        outcome == Fail(AmbiguousDevice) && port == old(port) && written == old(written)
      ensures |Responders(Candidates(comport), code, probe)| == 1 ==>
        && port == Some(Responders(Candidates(comport), code, probe)[0])
        && written == old(written) + Repeat([Ping], PollCount(reopen))
        && (outcome == Pass <==> FirstReply(reopen) == code)
        && (outcome != Pass ==> outcome == Fail(ConnectionTimeout))
        && timeout == if outcome == Pass then ConnectedTimeout else OpenTimeout
    {
      var ports := Candidates(comport);
      var result: seq<string> := [];
      var i := 0;
      while i < |ports|
        invariant 0 <= i <= |ports|
        invariant result == Responders(ports[..i], code, probe)
        invariant port == old(port) && written == old(written)
      {
        var heartbeat := GetHeartbeat(probe(ports[i]), code);
        if heartbeat {
          result := result + [ports[i]];
        }
        assert ports[..i + 1][..i] == ports[..i];
        i := i + 1;
      }
      assert ports[..i] == ports;
      if |result| == 0 {
        return Fail(NoDeviceFound);
      } else if |result| == 1 {
        outcome := Open(result[0], code, reopen);
      } else {
        return Fail(AmbiguousDevice);
      }
    }

    /** Open the one port that answered, ping it again until it answers or
        the opening timeout ends, and keep the connection (with the longer
        read timeout) only if the answer is the code. */
    method Open(chosen: string, code: string, reopen: seq<string>) returns (outcome: Outcome)
      modifies this`port, this`timeout, this`written
      ensures port == Some(chosen) && written == old(written) + Repeat([Ping], PollCount(reopen))
      ensures outcome == Pass <==> FirstReply(reopen) == code
      ensures outcome != Pass ==> outcome == Fail(ConnectionTimeout)
      ensures timeout == if outcome == Pass then ConnectedTimeout else OpenTimeout
    {
      port := Some(chosen);
      timeout := OpenTimeout;
      var reply, pings := Poll(reopen);
      written := written + Repeat([Ping], pings);
      if reply == code {
        timeout := ConnectedTimeout;
        return Pass;
      } else {
        return Fail(ConnectionTimeout);
      }
    }

    /** `sendstate`: set the mirror to the target (updatestate), look its
        routing vector and valve up to describe the new state, then run the
        handshake. */
    method SendState(v: int, p: int, r: seq<int>) returns (outcome: Outcome)
      modifies this`valve, this`pump, this`routing, this`written, this`replies
      ensures State() == Mirror(v, p, r)
      ensures var x := Transfer(Mirror(v, p, r), old(replies), handshakes);
        outcome == x.outcome && written == old(written) + x.sent && replies == x.rest
    {
      valve, pump, routing := v, p, r;
      if routing !in Routing.Inverse() {
        return Fail(UnknownRouting(routing));
      }
      if valve !in ValveNames {
        return Fail(UnknownValve(valve));
      }
      outcome := Handshake();
    }

    /** The retry loop of `sendstate`: write the frame and a status query and
        compare the reply, round after round, until a reply matches or the
        attempt counter reaches the budget. The counter is checked after
        every round, so a match on the last allowed round still fails. */
    method Handshake() returns (outcome: Outcome)
      modifies this`written, this`replies
      ensures var x := Handshaken(old(State()), old(replies), handshakes);
        outcome == x.outcome && written == old(written) + x.sent && replies == x.rest
    {
      ghost var target := State();
      ghost var r0 := replies;
      ghost var w0 := written;
      ghost var verdicts := Verdicts(r0, target);
      var noHandshake := true;
      var attempts: nat := 0;
      while noHandshake
        invariant Underway(target, r0, w0, verdicts, attempts, noHandshake, State(), written, replies)
        decreases noHandshake, handshakes - attempts
      {
        var matched := Attempt(target, r0, w0, verdicts, attempts);
        if attempts + 1 >= handshakes {
          outcome := Fail(HandshakeFailed);
          Concluded(target, r0, w0, verdicts, attempts + 1, outcome);
          return;
        }
        noHandshake := !matched;
        attempts := attempts + 1;
      }
      outcome := Pass;
      Concluded(target, r0, w0, verdicts, attempts, outcome);
    }

    /** The handshake after `rounds` rounds, still going or acknowledged. */
    ghost predicate Underway(target: Mirror, r0: seq<string>, w0: seq<string>, verdicts: seq<bool>,
                             rounds: nat, going: bool, now: Mirror, w: seq<string>, r: seq<string>)
    {
      verdicts == Verdicts(r0, target) && Exchanged(target, r0, w0, rounds, now, w, r)
      && Midway(verdicts, handshakes, rounds, going)
    }

    /** Once the handshake has ended after `rounds` rounds with the outcome
        the counted rounds call for, the link has seen what `Handshaken`
        describes. */
    lemma Concluded(target: Mirror, r0: seq<string>, w0: seq<string>, verdicts: seq<bool>,
                    rounds: nat, outcome: Outcome)
      requires Exchanged(target, r0, w0, rounds, State(), written, replies) && verdicts == Verdicts(r0, target)
      requires Rounds(verdicts, handshakes) == rounds
      requires outcome == if Acknowledged(verdicts, handshakes) then Pass else Fail(HandshakeFailed)
      ensures var x := Handshaken(target, r0, handshakes);
        outcome == x.outcome && written == w0 + x.sent && replies == x.rest
    {
    }

    /** The mirror `now` holds `target`, and `rounds` rounds of the handshake
        have written their lines after `w0`, giving `w`, and read their
        replies from `r0`, leaving `r`. */
    ghost predicate Exchanged(target: Mirror, r0: seq<string>, w0: seq<string>, rounds: nat,
                              now: Mirror, w: seq<string>, r: seq<string>)
    {
      && now == target
      && r == Drop(r0, rounds)
      && w == w0 + Repeat(RoundLines(target), rounds)
    }

    /** Round number `attempts` of the handshake, after the earlier rounds
        wrote their lines and read their replies. */
    method Attempt(ghost target: Mirror, ghost r0: seq<string>, ghost w0: seq<string>,
                   ghost verdicts: seq<bool>, ghost attempts: nat) returns (matched: bool)
      requires Underway(target, r0, w0, verdicts, attempts, true, State(), written, replies)
      modifies this`written, this`replies
      ensures attempts + 1 < handshakes ==>
        Underway(target, r0, w0, verdicts, attempts + 1, !matched, State(), written, replies)
      ensures attempts + 1 >= handshakes ==>
        && Exchanged(target, r0, w0, attempts + 1, State(), written, replies) && verdicts == Verdicts(r0, target)
        && Rounds(verdicts, handshakes) == attempts + 1 && !Acknowledged(verdicts, handshakes)
    {
      matched := Round();
      RepeatMore(w0, RoundLines(target), attempts);
      DropNext(r0, attempts);
      VerdictAfter(r0, target, attempts);
      MidwayStep(verdicts, handshakes, attempts);
    }

    /** One round of `sendstate`: write the frame and the status query, read
        one reply and compare it with the check string. */
    method Round() returns (matched: bool)
      modifies this`written, this`replies
      ensures written == old(written) + RoundLines(State())
      ensures replies == Drop(old(replies), 1)
      ensures matched == Hit(Verdicts(old(replies), State()), 0)
    {
      WriteLines(RoundLines(State()));
      matched := Confirms();
    }

    /** The read and comparison of `sendstate`: the reply, its last
        character (the line terminator) dropped, against the check string of
        the mirror, both stripped of surrounding whitespace. */
    method Confirms() returns (matched: bool)
      modifies this`written, this`replies
      ensures written == old(written) && replies == Drop(old(replies), 1)
      ensures matched == Hit(Verdicts(old(replies), State()), 0)
    {
      var reply := ReadReply();
      MatchesAsCompared(reply, State());
      HitAt(old(replies), State(), 0);
      matched := Strip(DropLast(reply)) == Strip(CheckString(State()));
    }

    /** Write lines to the device, one after the other. */
    method WriteLines(lines: seq<string>)
      modifies this`written, this`replies
      ensures written == old(written) + lines && replies == old(replies)
    {
      var i := 0;
      while i < |lines|
        invariant 0 <= i <= |lines|
        invariant written == old(written) + lines[..i] && replies == old(replies)
      {
        written := written + [lines[i]];
        i := i + 1;
      }
      assert lines[..i] == lines;
    }

    /** `read_until`: the next reply, or nothing once the device has stopped
        answering. */
    method ReadReply() returns (reply: string)
      modifies this`written, this`replies
      ensures reply == if old(replies) == [] then "" else old(replies)[0]
      ensures replies == Drop(old(replies), 1) && written == old(written)
    {
      reply := if replies == [] then "" else replies[0];
      replies := if replies == [] then [] else replies[1..];
    }

    /** `set_valve_state`: select a reagent by name and a valve position,
        keeping the pump as it is. An unknown name fails at the table lookup,
        before the mirror changes or anything is sent. */
    method SetValveState(name: string, v: int) returns (outcome: Outcome)
      modifies this`valve, this`pump, this`routing, this`written, this`replies, log
      ensures log.events == old(log.events) + [ValveCall(name, v)]
      ensures State() == Apply(old(State()), ValveCall(name, v))
      ensures name !in Routing.Table() ==>
        outcome == Fail(UnknownReagent(name)) && written == old(written) && replies == old(replies)
      ensures name in Routing.Table() ==>
        var x := Transfer(State(), old(replies), handshakes);
        outcome == x.outcome && written == old(written) + x.sent && replies == x.rest
    {
      log.events := log.events + [ValveCall(name, v)];
      if name !in Routing.Table() {
        return Fail(UnknownReagent(name));
      }
      outcome := SendState(v, pump, Routing.Table()[name]);
    }

    /** `set_pump_state`: set the pump, keeping the valve and routing as they
        are. */
    method SetPumpState(p: int) returns (outcome: Outcome)
      modifies this`valve, this`pump, this`routing, this`written, this`replies, log
      ensures log.events == old(log.events) + [PumpCall(p)]
      ensures State() == Apply(old(State()), PumpCall(p))
      ensures var x := Transfer(State(), old(replies), handshakes);
        outcome == x.outcome && written == old(written) + x.sent && replies == x.rest
    {
      log.events := log.events + [PumpCall(p)];
      outcome := SendState(valve, p, routing);
    }

    /** What can be observed of the handler now. That a recipe ran from
        the moment `p` until now is `Went(p, Here(), ...)`, with the calls
        acting on the link as `Handled(handshakes)`: each call retried up to
        `handshakes` times. */
    function Here(): Moment
      reads this, log
    {
      Moment(log.events, State(), written, replies)
    }

    /** One step of a recipe, as its event records it: a handler call, or
        one second of `wait_for`. */
    method Step(e: Event) returns (outcome: Outcome, ghost x: Exchange)
      requires e.PumpCall? || e.ValveCall? || e.Tick?
      modifies this`valve, this`pump, this`routing, this`written, this`replies, log
      ensures log.events == old(log.events) + [e] && State() == Apply(old(State()), e)
      ensures x == if Calls(e) then Call(old(State()), e, old(replies), handshakes) else Exchange(Pass, [], old(replies))
      ensures outcome == x.outcome && written == old(written) + x.sent && replies == x.rest
      ensures outcome.Pass? ==> Listed(e)
      ensures outcome.Fail? ==> DeviceFault(outcome.error)
    {
      if e.PumpCall? {
        outcome := SetPumpState(e.pump);
        x := Call(old(State()), e, old(replies), handshakes);
      } else if e.ValveCall? {
        outcome := SetValveState(e.name, e.valve);
        x := Call(old(State()), e, old(replies), handshakes);
      } else {
        log.events := log.events + [Tick];
        outcome := Pass;
        x := Exchange(Pass, [], replies);
      }
    }

    /** Run a recipe: make its handler calls and one-second waits in order,
        and stop at the first call that fails, as an exception raised by the
        handler ends the recipe that made the call. */
    method Perform(script: seq<Event>) returns (outcome: Outcome)
      requires Performable(script)
      modifies this`valve, this`pump, this`routing, this`written, this`replies, log
      ensures Went(old(Here()), Here(), script, Pass, outcome, Handled(handshakes))
      ensures var d := Drive(old(State()), script, old(replies), Handled(handshakes));
        outcome == d.outcome && written == old(written) + d.sent && replies == d.rest
      ensures outcome.Fail? ==> DeviceFault(outcome.error)
    {
      ghost var p0 := Here();
      ghost var link := Handled(handshakes);
      outcome := Pass;
      var i := 0;
      ghost var d := Exchange(Pass, [], p0.replies);
      while i < |script|
        invariant 0 <= i <= |script|
        invariant log.events == p0.events + script[..i] && State() == Replay(p0.mirror, script[..i])
        invariant Known(script[..i]) && outcome == Pass
        invariant d == Drive(p0.mirror, script[..i], p0.replies, link) && d.outcome == Pass
        invariant written == p0.written + d.sent && replies == d.rest
      {
        outcome, d := Next(p0, script, i, d);
        if outcome.Fail? {
          StoppedAt(p0, Here(), script, i, link);
          return;
        }
        i := i + 1;
      }
      assert script[..i] == script;
      Completed(p0, Here(), script, link);
    }

    /** Event `i` of a recipe whose earlier events ran with every call
        acknowledged, leaving the link as `d` says: the history, the mirror
        and the link move on by that event, whose failure is a device
        error. */
    method Next(ghost p0: Moment, script: seq<Event>, i: int, ghost d: Exchange) returns (outcome: Outcome, ghost next: Exchange)
      requires Performable(script) && 0 <= i < |script|
      requires log.events == p0.events + script[..i] && State() == Replay(p0.mirror, script[..i])
      requires Known(script[..i])
      requires d == Drive(p0.mirror, script[..i], p0.replies, Handled(handshakes)) && d.outcome == Pass
      requires written == p0.written + d.sent && replies == d.rest
      modifies this`valve, this`pump, this`routing, this`written, this`replies, log
      ensures log.events == p0.events + script[..i + 1] && State() == Replay(p0.mirror, script[..i + 1])
      ensures next == Drive(p0.mirror, script[..i + 1], p0.replies, Handled(handshakes))
      ensures outcome == next.outcome && written == p0.written + next.sent && replies == next.rest
      ensures outcome == Pass ==> Known(script[..i + 1])
      ensures outcome.Fail? ==> DeviceFault(outcome.error)
    {
      var e := script[i];
      ghost var x;
      outcome, x := Step(e);
      Advance(p0.mirror, script[..i], e, p0.replies, Handled(handshakes), x);
      Associate(p0.written, d.sent, x.sent);
      assert script[..i + 1] == script[..i] + [e];
      next := Drive(p0.mirror, script[..i + 1], p0.replies, Handled(handshakes));
      KnownConcat(script[..i], [e]);
    }

    /** The rest of `__init__`: connect, then, once connected, select the
        default reagent with the valve at 0 and stop the pump. A failed
        connection raises before any recipe call, leaving the mirror, the
        history and the replies as they were. */
    method Initialize(defaultState: string, comport: Option<string>, code: string,
                      probe: string -> PortLink, reopen: seq<string>) returns (outcome: Outcome)
      modifies this, log
      ensures var connected := |Responders(Candidates(comport), code, probe)| == 1 && FirstReply(reopen) == code;
        && (connected ==>
              && Went(old(Here()).(written := old(written) + Repeat([Ping], PollCount(reopen))), Here(),
                      [ValveCall(defaultState, 0), PumpCall(0)], Pass, outcome, Handled(handshakes))
              && outcome == Drive(old(State()), [ValveCall(defaultState, 0), PumpCall(0)], old(replies),
                                  Handled(handshakes)).outcome
              && (outcome.Fail? ==> DeviceFault(outcome.error)))
        && (!connected ==>
              && outcome.Fail? && !DeviceFault(outcome.error)
              && log.events == old(log.events) && State() == old(State()) && replies == old(replies))
      ensures var r := Responders(Candidates(comport), code, probe);
        && (|r| == 0 ==> outcome == Fail(NoDeviceFound))
        && (|r| > 1 ==> outcome == Fail(AmbiguousDevice))
        && (|r| == 1 && FirstReply(reopen) != code ==> outcome == Fail(ConnectionTimeout))
      ensures outcome.Pass? ==> port.Some? && timeout == ConnectedTimeout
    {
      ghost var p0 := Here();
      outcome := Connect(comport, code, probe, reopen);
      if outcome.Fail? {
        return;
      }
      assert Here() == p0.(written := p0.written + Repeat([Ping], PollCount(reopen)));
      outcome := Boot(defaultState);
    }

    /** Once connected: select `defaultState` with the valve at 0, then
        stop the pump. */
    method Boot(defaultState: string) returns (outcome: Outcome)
      modifies this`valve, this`pump, this`routing, this`written, this`replies, log
      ensures Went(old(Here()), Here(), [ValveCall(defaultState, 0), PumpCall(0)], Pass, outcome, Handled(handshakes))
      ensures var d := Drive(old(State()), [ValveCall(defaultState, 0), PumpCall(0)], old(replies), Handled(handshakes));
        outcome == d.outcome && written == old(written) + d.sent && replies == d.rest
      ensures outcome.Fail? ==> DeviceFault(outcome.error)
    {
      outcome := Perform([ValveCall(defaultState, 0), PumpCall(0)]);
    }

    /** `clean`: flush the imaging line, then every reagent line in table
        order, then stop the pump, stopping at the first call that fails. */
    method Clean(timePerLine: int, speed: int) returns (outcome: Outcome)
      modifies this`valve, this`pump, this`routing, this`written, this`replies, log
      ensures Went(old(Here()), Here(), CleanScript(timePerLine, speed), Pass, outcome, Handled(handshakes))
      ensures var d := Drive(old(State()), CleanScript(timePerLine, speed), old(replies), Handled(handshakes));
        outcome == d.outcome && written == old(written) + d.sent && replies == d.rest
    {
      CleanPerformable(timePerLine, speed);
      outcome := Perform(CleanScript(timePerLine, speed));
    }
  }
}
