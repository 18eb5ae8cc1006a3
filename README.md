# MARLIN fluidics and FISH scheduler, modelled in Dafny

MARLIN is a fluidics controller for sequential FISH (fluorescence in situ
hybridization) experiments. Its Python driver has three parts, and this
project models the core of each:

- **The fluidics handler** (`marlin/handler.py`).
  - It keeps a mirror of the device state: the stage valve (0/1), the pump
    speed and a 5-slot routing vector.
  - It names the device's 29 reagent lines through a routing table and its
    reverse.
  - It finds the device by a heartbeat on the serial ports.
  - It moves the device from state to state by command and verification. A
    frame of lines is sent, then a status query, and the reply is compared
    with the canonical status string. This is retried within a bounded
    attempt budget.
- **The recipe sequencer** (`marlin/scheduler.py`). It performs:
  - `load_reagent`;
  - the fixation steps;
  - the hybridization cycles;
  - the whole `run`.

  Each of these is a fixed sequence of pump calls, valve calls and
  one-second waits, with snapshots and multipoint acquisitions on the
  microscope in between.
- **The microscope helpers** (`marlin/scope.py`):
  - the serpentine grid of fields of view;
  - the multipoint-file dispatch and CSV line structure;
  - the configuration check and capture order of the multipoint
    acquisition.

## Layout

- `outcomes.dfy` (module `Outcomes`). The exceptions the code raises, as an
  `Error` datatype, plus `Outcome`, `Result` and `Option`.
- `text.dfy` (module `Text`). The Python string operations the protocol
  relies on:
  - `str` of an integer;
  - `"0" * k` padding;
  - `split` and `join`;
  - `bytes.strip()`;
  - `[:-1]`;
  - substring test.
- `routing.dfy` (module `Routing`). The reagent table, its reverse built
  with dictionary semantics (a later key replaces an earlier one), and the
  bijection between them.
- `protocol.dfy` (module `Protocol`). Pure definitions:
  - the command frame and its decoding;
  - the status string and its parsing;
  - the handshake's round count and verdict;
  - one state transition (`Transfer`);
  - heartbeat and port discovery.
- `timing.dfy` (module `Timing`):
  - the event history of a run (pump calls, valve calls, one-second ticks,
    snapshots, acquisitions);
  - the `Log` class that records it;
  - the `WaitFor` loop;
  - the replay of a history on the handler mirror;
  - `Drive`, what the handler calls of a history do on the serial link,
    up to the first call the device does not acknowledge;
  - `Went`, which says that between two moments the handler ran a leading
    part of a script. The mirror is the replay of the events made. The
    lines written and the replies read are those `Drive` gives for them. A
    device error is the error of the last call made, the first one not
    acknowledged.
- `handler.dfy` (module `Handler`). The `FluidicsHandler` class:
  - mirror fields, the lines written to the device and the replies it has
    yet to give;
  - the handshake loop, `connect`, `set_valve_state`, `set_pump_state` and
    `clean`.
- `scope.dfy` (module `Scope`). The `Microscope` class, which records its
  calls and saved files; `set_grid` and `multipoint_aq` as loops; the
  multipoint-file dispatch.
- `scheduler.dfy` (module `Scheduler`):
  - every recipe as the script of events it produces;
  - lemmas on what each script does to the mirror and in what order it
    opens reagent lines;
  - the `FishScheduler` class, whose methods run the recipes on the handler
    and microscope. Each method is proved to run its script in the sense
    of `Went`: up to the first failure, with what it wrote and read, and
    any device error it ends with, being those of `Drive` over the calls
    it made.

### How the code's behaviour is followed

- **Exceptions.** Each exception is an `Outcome.Fail` or `Result.Failure`
  carrying the error. The code raises at the same point. A recipe stops
  right after the first call that fails: `Went` makes every earlier call
  of the run acknowledged on the link, and the failing call the last one
  made.
- **Handshake budget.** The code checks the attempt counter after every
  round, including a round whose reply matched (`marlin/handler.py:136-140`).
  So a match on the last allowed round still raises; the model follows the
  code.
- **Wash branch of `perform_cycle`.** It calls `self.wait_for`
  (`marlin/scheduler.py:68`), which `FISH_scheduler` does not define. As
  written, it raises after loading SSC and slowing the pump. The model
  keeps this as the error `MissingWaitFor`: with the wash enabled, every run
  of at least one cycle fails there.
- **`updatestate` lookups.** `updatestate` sets the mirror before looking
  the routing vector and the valve up to print a description. So an
  unknown routing vector or valve position fails with the mirror already
  changed and nothing written.

## Model

| member | source | states |
|---|---|---|
| Text.NatToString | marlin/handler.py:109-110 | `str(n)` is a non-empty string of decimal digits that begins with '0' exactly when n is 0 |
| Text.DigitValue | marlin/handler.py:109-110 | a decimal digit is worth less than ten |
| Text.DigitChar | marlin/handler.py:109-110 | the digit printed for a value below ten reads back as that value |
| Text.IntToString | marlin/handler.py:134 | `str(i)` is non-empty and begins with '-' exactly when i is negative |
| Text.ParseNatToString | marlin/handler.py:109-110 | reading the digits of `str(n)` back gives n |
| Text.NatToStringInjective | marlin/handler.py:134 | distinct non-negative numbers print differently, in both directions |
| Text.IntToStringInjective | marlin/handler.py:134 | distinct integers print differently, in both directions |
| Text.DigitsWithin | marlin/handler.py:111 | a number below 10^k prints in at most k digits |
| Text.ParseLeadingZeros | marlin/handler.py:111 | zeros put in front of digits leave their value unchanged |
| Text.PaddedRoundTrip | marlin/handler.py:111 | a number below 10^width, zero-padded to width, is exactly width digits long and reads back as itself |
| Text.Split | marlin/scope.py:28-29 | `split(sep)` gives at least one piece and no piece holds the separator |
| Text.JoinSplit | marlin/scope.py:28 | joining the pieces of a split with the same separator gives the string back |
| Text.SplitNoSeparator | marlin/scope.py:29 | a string without the separator splits into itself alone |
| Text.SplitAtSeparator | marlin/scope.py:28-29 | a split ends its first piece at the first separator and splits the rest the same way |
| Text.SplitJoin | marlin/scope.py:28-29 | splitting a join gives the parts back when no part holds the separator |
| Text.SplitLength | marlin/scope.py:28 | a split gives one more piece than the string has separators |
| Text.StripLeftFacts | marlin/handler.py:136 | the left strip removes only a run of leading whitespace, and all of it |
| Text.StripRightFacts | marlin/handler.py:136 | the right strip removes only a run of trailing whitespace, and all of it |
| Text.Strip | marlin/handler.py:136 | `strip()` leaves no whitespace at either end |
| Text.StripPadded | marlin/handler.py:136 | a trimmed string wrapped in whitespace strips back to itself |
| Text.StripIdempotent | marlin/handler.py:136 | stripping twice is stripping once |
| Text.DropLast | marlin/handler.py:131 | `s[:-1]` is s without its last character, and empty for an empty string |
| Text.ContainsAt | marlin/scope.py:186 | the substring test holds exactly when the substring occurs at some position |
| Routing.Names | marlin/handler.py:13-22 | definition: the reagent names in the order the table declares them |
| Routing.NamesInTable | marlin/handler.py:156 | the names `clean` walks are exactly the reagents of the table, each named once |
| Routing.DictOf | marlin/handler.py:23 | a dictionary built from pairs has exactly the keys of the pairs |
| Routing.DictOfKeeps | marlin/handler.py:23 | a pair whose key no later pair repeats keeps its value in the dictionary |
| Routing.Table | marlin/handler.py:13-22 | definition: `titanx_states`, the 29 entries as a dictionary |
| Routing.Inverse | marlin/handler.py:23 | definition: `titanx_states_inv`, each vector mapped to its name, built in table order |
| Routing.VectorsDistinct | marlin/handler.py:13-22 | no two reagents share a routing vector |
| Routing.NamesDistinct | marlin/handler.py:13-22 | no reagent is named twice |
| Routing.TableAt | marlin/handler.py:13-22 | looking up each reagent of the table finds its own vector |
| Routing.InverseAt | marlin/handler.py:23 | looking up each vector in the reverse table finds its own reagent |
| Routing.InverseOfTable | marlin/handler.py:13-23 | for every reagent, the reverse lookup of its vector is the reagent |
| Routing.TableOfInverse | marlin/handler.py:13-23 | for every vector of the reverse table, looking up its name gives the vector back; the two tables are a bijection |
| Routing.TableShape | marlin/handler.py:13-22 | every routing vector has 5 slots, each from 0 to 12 |
| Routing.EntriesShape | marlin/handler.py:13-22 | every entry of the table declaration has 5 slots, each from 0 to 12 |
| Routing.ProbeEntries | marlin/handler.py:13-20 | the first 24 entries are "Probe 1" to "Probe 24", in order |
| Routing.ProbeNameInTable | marlin/scheduler.py:59 | the reagent "Probe c" is in the table exactly when 1 <= c <= 24, and then its vector is that of the c-th entry |
| Routing.ProbeNameListed | marlin/scheduler.py:59 | cycles 1 to 24 find their probe in the table, on the c-th entry's vector |
| Routing.ProbeEntryAt | marlin/handler.py:13-20 | entry i is the probe of cycle i + 1, for the first 24 entries |
| Routing.ProbeNameAt | marlin/handler.py:13-20 | only entry c - 1 carries the name of cycle c |
| Routing.ProbeNameInjective | marlin/scheduler.py:59 | distinct cycle numbers name distinct probes |
| Routing.OtherNames | marlin/handler.py:21-22 | the reagents after the probes cannot be mistaken for a probe |
| Routing.PowerOnVectorUnnamed | marlin/handler.py:11 | the power-on all-zero routing vector names no reagent |
| Routing.InverseSelects | marlin/handler.py:23 | every vector the reverse table knows has 5 slots and a non-zero slot 1 |
| Protocol.ValveLine | marlin/handler.py:109 | definition: "4" followed by the valve in decimal |
| Protocol.PumpLine | marlin/handler.py:110-111 | definition: "3" followed by the pump in decimal, zero-padded on the left to four characters |
| Protocol.SlotLine | marlin/handler.py:117-118 | definition: "2", the slot index, then the slot value zero-padded on the left to two characters |
| Protocol.RoutingLines | marlin/handler.py:113-119 | definition: one slot line per non-zero slot, in slot order |
| Protocol.Frame | marlin/handler.py:121 | definition: an empty line, the valve line, the pump line, then the routing lines |
| Protocol.RoundLines | marlin/handler.py:121-130 | definition: one round writes the frame, then the status query "0" |
| Protocol.RoutingLinesCount | marlin/handler.py:113-119 | one routing line per non-zero slot, and none for an all-zero vector |
| Protocol.FrameLength | marlin/handler.py:121 | a frame is three fixed lines plus one per non-zero slot, so exactly 3 for an all-zero vector |
| Protocol.PumpFieldRoundTrip | marlin/handler.py:110-111 | for pump values 0..9999 the pump line is "3" then four digits that read back as the value |
| Protocol.SlotFieldRoundTrip | marlin/handler.py:117-118 | for values 1..99 the slot line is "2", the slot digit, then two digits that read back as the value |
| Protocol.ApplyRoutingLines | marlin/handler.py:115-119 | decoding the routing lines from a partly set vector completes it to the routing vector |
| Protocol.FrameRoundTrip | marlin/handler.py:109-121 | decoding a frame gives back the state it was built from, for every state its fixed-width fields can hold |
| Protocol.CheckString | marlin/handler.py:134 | definition: "[" + the routing slots in decimal joined by "," + "];" + the valve + ";" + the pump |
| Protocol.CheckStringExample | marlin/handler.py:134 | routing [0,1,1,9,0], valve 0, pump 2000 give "[0,1,1,9,0];0;2000" |
| Protocol.CheckStringTrimmed | marlin/handler.py:134-136 | the status string has no surrounding whitespace, so the strip in the comparison leaves it unchanged |
| Protocol.ParseDecimals | marlin/handler.py:134 | the decimal fields of non-negative numbers read back as those numbers |
| Protocol.CheckStringFields | marlin/handler.py:134 | the status string is three ';'-separated fields: the bracketed routing, the valve and the pump |
| Protocol.RoutingListRoundTrip | marlin/handler.py:134 | the bracketed routing list reads back as the routing vector |
| Protocol.CheckStringRoundTrip | marlin/handler.py:134 | the status string of a state reads back as that state |
| Protocol.CheckStringInjective | marlin/handler.py:134 | two states have the same status string exactly when they are equal |
| Protocol.Matches | marlin/handler.py:131-136 | definition: the reply with its last byte dropped and whitespace stripped equals the status string |
| Protocol.MatchesAsCompared | marlin/handler.py:131-136 | a reply confirms the target exactly when, with its last byte dropped and both sides stripped, it equals the status string |
| Protocol.EchoMatches | marlin/handler.py:131-136 | a reply that is the status string wrapped in whitespace, plus a terminator, confirms the target |
| Protocol.SilenceNeverMatches | marlin/handler.py:131-136 | an empty read, as after a timeout, never confirms a state |
| Protocol.Verdicts | marlin/handler.py:136 | one verdict per reply the device gives |
| Protocol.VerdictAt | marlin/handler.py:136 | round i's verdict is whether reply i confirms the target |
| Protocol.HitAt | marlin/handler.py:131-136 | round i's verdict is whether the reply it reads confirms the target, that reply being nothing once the device has stopped answering |
| Protocol.Rounds | marlin/handler.py:104-140 | definition: the rounds run go up to the first match, or to the round on which the attempt counter reaches the budget |
| Protocol.Acknowledged | marlin/handler.py:136-140 | definition: the last round run matched and the counter after it is still below the budget |
| Protocol.RoundsFacts | marlin/handler.py:104-140 | the handshake runs at least one and at most `handshakes` rounds; every round but the last mismatched, and the last matched or used up the budget |
| Protocol.AcknowledgedIff | marlin/handler.py:136-140 | the handshake succeeds exactly when some round numbered below budget - 1 (from 0) matches |
| Protocol.MatchOnLastRoundFails | marlin/handler.py:136-140 | a match that arrives only on the last allowed round still raises, after `budget` rounds |
| Protocol.Repeat | marlin/handler.py:108-131 | n rounds of the same lines are n times as long as one round |
| Protocol.Transfer | marlin/handler.py:87-140 | definition: an unknown routing vector or valve fails at the description lookup with nothing sent; otherwise the handshake runs |
| Protocol.Handshaken | marlin/handler.py:104-140 | definition: the handshake writes `Rounds` whole rounds, reads one reply per round, and passes exactly when acknowledged |
| Protocol.TransferIff | marlin/handler.py:87-140 | a transition returns normally exactly when the routing vector is a table vector, the valve is 0 or 1, and a reply confirms the target early enough |
| Protocol.AcknowledgedConfirmed | marlin/handler.py:104-140 | the handshake over the replies succeeds exactly when one of them confirms the target early enough |
| Protocol.TransferRounds | marlin/handler.py:92-140 | the lines sent are whole rounds, with one reply read per round; a failed lookup sends and reads nothing |
| Protocol.TwoMismatchesFail | marlin/handler.py:104-140 | with budget 2, two mismatching replies give exactly two full rounds, then "Handshake failed" |
| Protocol.FirstReply | marlin/handler.py:37-44 | definition: the first non-empty reply, or nothing when every read was empty |
| Protocol.FirstReplyFacts | marlin/handler.py:37-44 | the ping loop ends on the first non-empty reply, or returns nothing when every read before the timeout was empty; it pings at least once |
| Protocol.Heartbeat | marlin/handler.py:46-51 | definition: the port could be opened and its first reply is the connect code |
| Protocol.Candidates | marlin/handler.py:54-57 | definition: the given port, or COM1 to COM256 |
| Protocol.CandidatesFacts | marlin/handler.py:54-57 | without a given port, discovery probes COM1..COM256, all distinct, in order; with one, only that port |
| Protocol.CandidatesDiffer | marlin/handler.py:55 | two different positions of the COM1..COM256 list name different ports |
| Protocol.Responders | marlin/handler.py:59-63 | definition: the probed ports whose heartbeat answered, in probing order |
| Protocol.RespondersFacts | marlin/handler.py:59-63 | a port is a responder exactly when it was probed and answered with the code; never more responders than ports |
| Timing.WaitFor | marlin/scheduler.py:5-8 | the loop records exactly the ticks of `Wait(secs)` |
| Timing.Log.constructor | marlin/scheduler.py:5-8 | a new history is empty |
| Timing.SecondsConcat | marlin/scheduler.py:5-8 | the time of two histories in a row is the sum of their times |
| Timing.SecondsOfWait | marlin/scheduler.py:5-8 | `wait_for(secs)` lasts max(0, secs) seconds |
| Timing.Apply | marlin/handler.py:87-90 | definition: a pump call sets the pump; a valve call with a table reagent sets the valve and the routing vector, and with an unknown one changes nothing; other events change nothing |
| Timing.Replay | marlin/handler.py:142-147 | definition: the mirror after applying a history's events in order |
| Timing.ReplayConcat | marlin/handler.py:87-90 | replaying two histories in a row is replaying one after the other |
| Timing.ReplayWait | marlin/scheduler.py:5-8 | waiting leaves the mirror unchanged |
| Timing.ReplayShaped | marlin/handler.py:9-23 | every history keeps the routing mirror on the power-on vector or a table vector |
| Timing.ApplyShaped | marlin/handler.py:142-147 | one handler call keeps the routing mirror on the power-on vector or a table vector |
| Timing.PerformableConcat | marlin/scheduler.py:32-45 | two recipes in a row are still made of handler calls and waits only |
| Timing.KnownConcat | marlin/handler.py:143 | two histories together name only table reagents exactly when each does |
| Timing.Followed | marlin/scheduler.py:32-122 | definition: the events made are a leading part of the script, the mirror is their replay, and the script's own ending is reached only when every event was made and every valve call found its reagent |
| Timing.FollowedThen | marlin/scheduler.py:32-45 | a part run to its end, then another part, is a run of the two scripts together |
| Timing.FollowedExtend | marlin/scheduler.py:77-122 | a run that failed part-way through a script also failed part-way through any longer script |
| Timing.ReplayQuiet | marlin/scheduler.py:87-118 | waits, snapshots and acquisitions leave the mirror unchanged |
| Timing.Call | marlin/handler.py:142-147 | definition: a call with a table reagent (or a pump call) runs `Transfer` to the mirror it selects; an unknown reagent fails at the lookup, with nothing sent |
| Timing.Drive | marlin/handler.py:101-147 | definition: the handler calls of a history one after the other, each from the mirror and the replies the earlier ones left, up to the first that fails, whose outcome is the history's; waits and imaging neither write nor read |
| Timing.CallFault | marlin/handler.py:136-147 | a handler call fails only with a device error: an unknown reagent, routing vector or valve, or a failed handshake |
| Timing.DriveFault | marlin/handler.py:136-147 | a history fails on the link only with a device error |
| Timing.Advance | marlin/handler.py:101-147 | after calls that were all acknowledged, one more event writes and reads what that event does on the link as they left it |
| Timing.DriveFails | marlin/handler.py:101-147 | a history fails exactly when one of its calls is not acknowledged while every call before it was |
| Timing.StuckStops | marlin/handler.py:136-140 | the history up to its first unacknowledged call already has the outcome, the lines and the replies of the whole history |
| Timing.LastStuck | marlin/handler.py:136-140 | after a part whose calls were all acknowledged, one more event fails exactly when it is a call the link does not acknowledge |
| Timing.DriveConcat | marlin/handler.py:101-147 | after a part whose calls were all acknowledged, the next part goes on from the mirror and the replies the first left, and writes after it |
| Timing.DriveStops | marlin/handler.py:136-140 | once a call has failed, no later event writes or reads anything |
| Timing.DriveQuiet | marlin/scheduler.py:5-8 | waits, snapshots and acquisitions neither write nor read |
| Timing.Drove | marlin/handler.py:101-147 | definition: the lines written and replies read are those of `Drive` over the events made; the calls failed exactly when the run ended with a device error, that error being theirs, and then the failing call was the last one made |
| Timing.DroveThen | marlin/handler.py:101-147 | what two parts in a row do on the link is what the first does, then the second from where the first left the link |
| Timing.Went | marlin/scheduler.py:32-122 | definition: between two moments the history grew by a run that `Followed` the script and that `Drove` the link |
| Timing.Arrived | marlin/scheduler.py:32-45 | a run that reached the end of its script made exactly that script's events |
| Timing.Completed | marlin/scheduler.py:32-45 | a run that made every event of its script, every call acknowledged, went through the script |
| Timing.StoppedAt | marlin/handler.py:136-140 | a run that stopped at the first call the link did not acknowledge went through the script up to that failure, which is the whole script's outcome on the link |
| Timing.StopsWithin | marlin/handler.py:136-140 | a script begun by events whose calls failed ends on the link as those events did |
| Timing.Chain | marlin/scheduler.py:51-56 | a part run to its end, then the next part, is a run of both, on the link as well |
| Timing.Extend | marlin/scheduler.py:51-56 | a run that failed part-way through a script also failed part-way through every longer script |
| Timing.Halted | marlin/scheduler.py:115-118 | a part run to its end, then a failure outside the handler, stops every longer script, with the link untouched by the failure |
| Timing.Raised | marlin/scheduler.py:65-68 | a part run to its end, then the error the script is meant to end with, is a run to that ending |
| Timing.Unstarted | marlin/scheduler.py:84 | a run that failed outside the handler before its first call followed every script, with the mirror and the link untouched |
| Timing.Passive | marlin/scheduler.py:87-118 | waits, snapshots and acquisitions leave the mirror and the link alone and cannot fail on the handler |
| Timing.Verdict | marlin/scheduler.py:32-122 | what a run's outcome tells about its whole script on the link: a device error is the script's first failing call; reaching the script's own ending means every call is acknowledged; and a script whose calls are all acknowledged cannot end in a device error |
| Handler.Poll | marlin/handler.py:37-44 | the ping loop returns the reply that ended it (the first non-empty one, or nothing at the timeout) and writes one ping per read |
| Handler.GetHeartbeat | marlin/handler.py:31-51 | a port is alive exactly when its reply is the connect code; a port that cannot be opened is not |
| Handler.FluidicsHandler.constructor | marlin/handler.py:8-12 | a new handler holds valve 0, pump 0 and the all-zero routing vector, with the given handshake budget |
| Handler.FluidicsHandler.Connect | marlin/handler.py:53-85 | no responder raises "No MARLIN detected", several raise "More than one MARLIN detected"; one is opened, pinged again and accepted with the 10 s timeout exactly when it answers the code, otherwise "MARLIN connection timeout"; the mirror is unchanged |
| Handler.FluidicsHandler.Open | marlin/handler.py:66-83 | the chosen port is opened and pinged until it answers; the call passes, with the 10 s timeout, exactly when the reply is the code |
| Handler.FluidicsHandler.SendState | marlin/handler.py:87-140 | the mirror holds the target whatever the outcome; the lines written, the replies read and the outcome are those of `Transfer` |
| Handler.FluidicsHandler.Handshake | marlin/handler.py:104-140 | the retry loop writes a whole round and reads one reply per attempt, and stops on a match or at the budget; the outcome, lines and replies are those of `Handshaken` |
| Handler.FluidicsHandler.Concluded | marlin/handler.py:136-140 | once the counted rounds have run, the link holds what `Handshaken` describes |
| Handler.FluidicsHandler.Attempt | marlin/handler.py:136-140 | one attempt either continues the handshake or, at the budget, ends it unacknowledged after exactly that many rounds |
| Handler.FluidicsHandler.Round | marlin/handler.py:109-136 | a round writes the frame and the status query, reads one reply, and reports whether it confirms the mirror |
| Handler.FluidicsHandler.Confirms | marlin/handler.py:129-136 | reads one reply and compares it, last byte dropped and both sides stripped, with the status string |
| Handler.FluidicsHandler.WriteLines | marlin/handler.py:123-127 | the frame's lines are written in order |
| Handler.FluidicsHandler.ReadReply | marlin/handler.py:131 | `read_until` returns the next reply, or nothing once the device has stopped answering |
| Handler.FluidicsHandler.SetValveState | marlin/handler.py:142-144 | an unknown name fails at the lookup before anything changes or is sent; a known one sets the valve and routing, keeps the pump, and runs the transition |
| Handler.FluidicsHandler.SetPumpState | marlin/handler.py:146-147 | sets the pump, keeps the valve and routing, and runs the transition |
| Handler.FluidicsHandler.Step | marlin/handler.py:142-147 | a recipe step records its event and applies it to the mirror; it passes only for a known reagent, and fails only with a device error |
| Handler.FluidicsHandler.Perform | marlin/handler.py:142-147 | a recipe makes its calls and waits in order; the mirror is replayed over what ran, and the outcome, the lines written and the replies left are those `Drive` gives for the script: it stops right after the first call the device does not acknowledge, and fails only with a device error |
| Handler.FluidicsHandler.Next | marlin/handler.py:142-147 | one more event of a recipe whose earlier calls were all acknowledged: the history, the mirror and the link move on as `Drive` says for that event |
| Handler.FluidicsHandler.Initialize | marlin/handler.py:26-28 | after `connect`: no responder fails with no device found, several with an ambiguous device, and a single one whose reopened port does not answer the connect code with a connection timeout; these are not device errors and leave the history, mirror and replies as they were. Once connected, after the reopen polls, the default reagent is selected with the valve at 0 and the pump is stopped as `Went` says, with the outcome `Drive` gives for those two calls, so a failure is a device error; when all of it passes the handler holds a port with the 10 s timeout |
| Handler.FluidicsHandler.Boot | marlin/handler.py:27-28 | once connected: the default reagent with the valve at 0, then the pump stopped, run as `Went` says; the outcome, the lines written and the replies left are those `Drive` gives for the two calls, so a failure is a device error of the first one not acknowledged |
| Handler.FluidicsHandler.Clean | marlin/handler.py:149-161 | cleaning makes the calls of the clean script in order; the outcome, the lines written and the replies left are those `Drive` gives for the clean script, so a failure is the error of its first unacknowledged call |
| Handler.LineScript | marlin/handler.py:157-160 | definition: flushing one line: pump stopped, the line selected with the valve at 0, the cleaning speed, then the wait per line |
| Handler.RinseScript | marlin/handler.py:150-155 | definition: pump stopped, "Image" to waste, the cleaning speed, five minutes, pump stopped, "Image" back to the stage |
| Handler.CleanScript | marlin/handler.py:149-161 | definition: the rinse, every reagent line in table order, then the pump stopped |
| Handler.CleanPerformable | marlin/handler.py:149-161 | cleaning is made of handler calls and waits only |
| Handler.LinesPerformable | marlin/handler.py:156-160 | flushing the reagent lines is made of handler calls and waits only |
| Handler.LinesScriptPrefix | marlin/handler.py:156-160 | flushing more lines extends the history of flushing fewer |
| Handler.LinesScriptVisits | marlin/handler.py:156-160 | every reagent line is opened with the valve at 0 and then pumped at the cleaning speed |
| Handler.LinesScriptEnds | marlin/handler.py:156-160 | after flushing the lines the pump runs at the cleaning speed on the last line, with the valve at 0 |
| Handler.CleanEndsIdle | marlin/handler.py:149-161 | whatever the start, cleaning ends with the pump stopped, the valve at 0 and the routing on the last table line (Cleave) |
| Scope.Row | marlin/scope.py:124-137 | definition: row r holds `cols` points at y + r * row_step, from the origin's column leftward when the row starts on the left, from the far column back otherwise |
| Scope.Grid | marlin/scope.py:118-140 | definition: the rows 0 to rows - 1 in order, row 0 starting on the left and the start side alternating |
| Scope.GridSize | marlin/scope.py:118-140 | the grid has cols * rows points, and none when either count is not positive |
| Scope.RowsBefore | marlin/scope.py:124-138 | the rows before row r hold r * cols points |
| Scope.NoColumns | marlin/scope.py:128-137 | with no columns the grid is empty |
| Scope.GridPrefix | marlin/scope.py:124-138 | more rows keep the rows already built |
| Scope.RowAt | marlin/scope.py:124-138 | row r of the grid comes right after the r rows before it |
| Scope.RowPoint | marlin/scope.py:125-137 | point c of row r is at y + r * row_step, and in column c from the origin in even rows, counted back from the far column in odd rows |
| Scope.GridAt | marlin/scope.py:118-140 | grid point r * cols + c is at y + r * row_step, in column c leftward of the origin in even rows and column cols - c - 1 in odd rows |
| Scope.GridTurn | marlin/scope.py:127-138 | the last point of one row and the first of the next share their x |
| Scope.Suffix | marlin/scope.py:14 | `path[-3:]` is the last three characters, or the whole of a shorter path |
| Scope.FormatOf | marlin/scope.py:12-23 | "csv" picks the CSV loader and "xml" the XML loader (from the path's suffix when the type is "auto"); anything else is refused with "Filetype not recognized" |
| Scope.CsvPositions | marlin/scope.py:25-31 | definition: the text split on newlines with the last piece dropped, each line split on ";" |
| Scope.CsvRoundTrip | marlin/scope.py:25-31 | positions written one per newline-ended line, fields separated by ';', load back as the same positions |
| Scope.CsvLines | marlin/scope.py:28 | the file is its lines joined by newlines, with an empty piece after the last newline, which the loader drops |
| Scope.LinesPlain | marlin/scope.py:28 | no line holds a newline |
| Scope.Undefined | marlin/scope.py:146-150 | definition: the listed configurations the channel group does not define, in list order |
| Scope.UndefinedIff | marlin/scope.py:146-152 | a configuration is reported exactly when it is listed and undefined, so the report is empty exactly when every listed one is defined |
| Scope.Exposures | marlin/scope.py:175-198 | definition: for each configuration in order, select it, switch focus maintenance on unless its name mentions "noPFS", and snap |
| Scope.Visit | marlin/scope.py:173-218 | definition: move to the field, the exposures, then the first configuration selected again with its focus switch |
| Scope.Visits | marlin/scope.py:169-218 | definition: the visit of every field, in grid order |
| Scope.Captures | marlin/scope.py:169-208 | definition: for every field in grid order, one capture per configuration, at the field's point |
| Scope.CapturesPrefix | marlin/scope.py:169-208 | the first fields give the first captures |
| Scope.CapturesSize | marlin/scope.py:169-208 | there are |grid| * |configs| captures |
| Scope.CaptureAt | marlin/scope.py:169-208 | the capture of configuration j at field fov follows the captures of the earlier fields |
| Scope.CaptureOrder | marlin/scope.py:169-208 | captures are field-major and configuration-minor: capture fov * |configs| + j is configuration j at field fov |
| Scope.LayRow | marlin/scope.py:127-138 | one row's loop lays out exactly the row of the grid |
| Scope.Microscope.constructor | marlin/scope.py:72-81 | a new microscope has made no call and saved no file |
| Scope.Microscope.SetGrid | marlin/scope.py:118-140 | the nested loops build exactly the serpentine grid around the current stage position |
| Scope.Microscope.CheckConfigs | marlin/scope.py:146-150 | the validation loop collects exactly the undefined configurations, in list order |
| Scope.Microscope.Move | marlin/scope.py:167 | moving the stage records the move and sets the position |
| Scope.Microscope.Select | marlin/scope.py:180-188 | selecting a configuration switches focus maintenance on unless its name mentions "noPFS" |
| Scope.Microscope.SnapImage | marlin/scope.py:83-86 | a snap is recorded |
| Scope.Microscope.SaveImage | marlin/scheduler.py:89-90 | a snapshot file is recorded |
| Scope.Microscope.Expose | marlin/scope.py:175-208 | at one field every configuration is selected and captured in order, one capture each |
| Scope.Microscope.Persist | marlin/scope.py:222-230 | one image file per capture in capture order, then the metadata table |
| Scope.Microscope.Sweep | marlin/scope.py:169-218 | the field loop visits every field in grid order and captures field-major |
| Scope.Microscope.VisitField | marlin/scope.py:170-218 | one field: move there, expose every configuration, then return to the first configuration |
| Scope.Microscope.MultipointAq | marlin/scope.py:143-230 | undefined configurations are refused before anything moves, with all of them listed; an empty grid or an empty channel list fails where it is first indexed; otherwise every field is visited, the stage returns to the first field, and the images and metadata are saved |
| Scheduler.LoadScript | marlin/scheduler.py:32-45 | definition: pump stopped, the reagent with the valve at 1, the fast speed, the fast wait, the medium speed, the reagent with the valve at 0, the medium wait |
| Scheduler.InitFixationScript | marlin/scheduler.py:47-49 | definition: the load of the fixative "PFA(half-MeAc)" |
| Scheduler.ContinueFixationScript | marlin/scheduler.py:51-56 | definition: the load of ethanol, the slow speed, 45 minutes, then the load of the fixative |
| Scheduler.CleaveScript | marlin/scheduler.py:61-63 | definition: nothing when the cleave is skipped, otherwise the load of "Cleave" and 10 minutes |
| Scheduler.WashScript | marlin/scheduler.py:65-68 | definition: the load of SSC and the slow speed, the calls made before the missing `self.wait_for` raises |
| Scheduler.ProbeScript | marlin/scheduler.py:70-75 | definition: the load of "Probe c", the slow speed, 30 minutes, the load of "Image", 5 minutes, the slow speed |
| Scheduler.CycleScript | marlin/scheduler.py:58-75 | definition: the cleave part, then the wash when enabled (where the cycle raises) or the probe part |
| Scheduler.Prelude | marlin/scheduler.py:81-107 | definition: unless skipped, the initial snapshot, `init_fixation`, the intermediate snapshot, `continue_fixation` and the final snapshot, the snapshots only with a microscope |
| Scheduler.Round | marlin/scheduler.py:109-118 | definition: cycle c without the wash, skipping the cleave only for c = 1, then its acquisition when there is a microscope |
| Scheduler.Cycles | marlin/scheduler.py:109-118 | definition: the rounds of cycles 1 to n in order, none when n < 1 |
| Scheduler.Finale | marlin/scheduler.py:120-122 | definition: pump stopped, SSC with the valve at 0, the slow speed |
| Scheduler.RunScript | marlin/scheduler.py:77-122 | definition: with the wash and at least one cycle, the prelude and the first cycle up to its wash; otherwise the prelude, the cycles and the finale |
| Scheduler.Reagents | marlin/handler.py:21-22 | the reagents the recipes name are in the table, with these vectors |
| Scheduler.LoadEnds | marlin/scheduler.py:32-45 | whatever the start, loading a reagent of the table leaves valve 0, the medium speed and that reagent's vector |
| Scheduler.LoadPerformable | marlin/scheduler.py:32-45 | a load is made of handler calls and waits only |
| Scheduler.LoadKnown | marlin/scheduler.py:36-42 | a load can pass exactly when its reagent is in the table |
| Scheduler.LoadSeconds | marlin/scheduler.py:39-44 | a load lasts its fast and medium waits |
| Scheduler.Untimed | marlin/handler.py:142-147 | handler calls without a wait take no time |
| Scheduler.CycleEnds | marlin/scheduler.py:58-75 | whatever the start, a cycle without the wash leaves valve 0, the slow speed and the imaging buffer's vector |
| Scheduler.CycleKnown | marlin/scheduler.py:58-75 | a cycle without the wash can pass only for cycles 1 to 24 |
| Scheduler.LoadMilestones | marlin/scheduler.py:32-45 | a load opens exactly one line, its reagent's |
| Scheduler.ShotMilestones | marlin/scheduler.py:87-90 | a snapshot is noted only when there is a microscope |
| Scheduler.ContinueMilestones | marlin/scheduler.py:51-56 | `continue_fixation` opens ethanol, then the fixative |
| Scheduler.FixationMilestones | marlin/scheduler.py:81-107 | the fixation opens fixative, ethanol and fixative, after the initial, intermediate and final snapshots when there is a microscope, and does nothing when skipped |
| Scheduler.CycleMilestones | marlin/scheduler.py:58-75 | a cycle opens the cleave unless skipped, then SSC with the wash, or the probe and the imaging buffer without; with the wash the probe's line is never opened |
| Scheduler.CleaveMilestones | marlin/scheduler.py:61-63 | the cleave opens its line unless skipped |
| Scheduler.ProbeMilestones | marlin/scheduler.py:70-75 | hybridization opens the probe of the cycle, then the imaging buffer |
| Scheduler.RoundMilestones | marlin/scheduler.py:109-118 | one pass of the loop follows the plan of cycle c, with its acquisition when there is a microscope |
| Scheduler.CyclesMilestones | marlin/scheduler.py:109-118 | the cycles run 1 to n in ascending order, and only cycle 1 skips the cleave |
| Scheduler.WashedMilestones | marlin/scheduler.py:65-68 | with the wash, the first cycle loads SSC and the run stops there |
| Scheduler.CycledMilestones | marlin/scheduler.py:109-122 | the cycles and the finale note what the cycle plan says |
| Scheduler.RunMilestones | marlin/scheduler.py:77-122 | a run opens its lines in the order of the fixation plan, then cycles 1 to n each followed by its acquisition; with the wash enabled it stops at the first cycle's SSC |
| Scheduler.RunEnds | marlin/scheduler.py:120-122 | whatever the start, a run without the wash ends with valve 0, the slow speed and SSC's vector |
| Scheduler.CyclesKnown | marlin/scheduler.py:109-113 | the cycles name only table reagents exactly when there are at most 24 |
| Scheduler.PreludeKnown | marlin/scheduler.py:81-107 | the fixation names only table reagents |
| Scheduler.RunKnown | marlin/scheduler.py:77-122 | a run without the wash can pass only with at most 24 cycles |
| Scheduler.LoadVerdict | marlin/scheduler.py:32-45 | a load passes only for a table reagent and then leaves valve 0, the medium speed and its vector; an unknown reagent fails |
| Scheduler.WashVerdict | marlin/scheduler.py:65-68 | a wash ends in the error of the missing `wait_for` exactly when both of its handler calls are acknowledged on the link; otherwise it ends in the error of the call that failed |
| Scheduler.CycleVerdict | marlin/scheduler.py:58-75 | with the wash a cycle always fails; without, it passes only for cycles 1 to 24 and then leaves the imaging buffer at the slow speed |
| Scheduler.RunVerdict | marlin/scheduler.py:77-122 | with the wash and a cycle a run always fails; otherwise it passes only for at most 24 cycles and then leaves SSC at the slow speed |
| Scheduler.Staging | marlin/scheduler.py:109-122 | the stages of the cycle loop: each stage is the one before followed by its pass, and every stage leads the rest of the run |
| Scheduler.ContinueStages | marlin/scheduler.py:51-56 | the points where `continue_fixation` can stop lead its script |
| Scheduler.ProbeStages | marlin/scheduler.py:70-75 | the points where a hybridization can stop lead its script |
| Scheduler.RunStages | marlin/scheduler.py:81-107 | the fixation is where every run begins |
| Scheduler.AcquisitionOutcome | marlin/scope.py:143-166 | definition: an undefined channel is refused first, listing all of them; then an empty grid fails at its first point, and an empty channel list at its first configuration |
| Scheduler.ShotsConcat | marlin/scheduler.py:81-118 | the microscope calls of two stretches of a run in a row are those of the first, then of the second |
| Scheduler.FiledConcat | marlin/scheduler.py:81-118 | the files of two stretches of a run in a row are those of the first, then of the second |
| Scheduler.PicturedNone | marlin/scheduler.py:32-75 | handler calls and waits make no microscope call and write no file, so neither does any leading part of a recipe |
| Scheduler.PicturedThen | marlin/scheduler.py:81-118 | records that account for two stretches of a run in a row account for the run from the start of the first |
| Scheduler.RoundShots | marlin/scope.py:143-166 | one cycle with its acquisition makes exactly the calls and files of `multipoint_aq`: none when a channel is undefined or the grid is empty, the moves to the first field and back with no channel, and on a pass the whole survey with its files |
| Scheduler.PreludeShots | marlin/scheduler.py:81-107 | the fixation makes three snaps saved as `initial`, `init_fixation` and `fixed`, and nothing when it is skipped |
| Scheduler.FirstAcquisitionFailed | marlin/scheduler.py:109-118 | a run stopped by a failed first acquisition made the fixation's snaps, then what `multipoint_aq` did before it failed, and saved only the fixation's images |
| Scheduler.RunRecords | marlin/scheduler.py:77-122 | the records of a run are the fixation's, then the cycles'; when it stopped at a failed first acquisition they are those `FirstAcquisitionFailed` gives |
| Scheduler.ContinuePerformable | marlin/scheduler.py:51-56 | `continue_fixation` is made of pump calls, valve calls and waits only |
| Scheduler.CyclePerformable | marlin/scheduler.py:58-75 | a cycle is made of pump calls, valve calls and waits only |
| Scheduler.FishScheduler.constructor | marlin/scheduler.py:11-30 | the scheduler keeps the handler, microscope, flags, speeds, channels and output folder it is given |
| Scheduler.FishScheduler.LoadReagent | marlin/scheduler.py:32-45 | `load_reagent` makes the calls and waits of the load script, stopping right after the first call the device does not acknowledge; the outcome is `Drive`'s over the load script, so a failure is a device error of that call |
| Scheduler.FishScheduler.Pause | marlin/scheduler.py:5-8 | a wait adds its ticks to the history and leaves the mirror alone |
| Scheduler.FishScheduler.InitFixation | marlin/scheduler.py:47-49 | `init_fixation` runs the load of the fixative as `Went` says. The history is a leading part of the script, the lines written and replies read are those `Drive` gives for the calls made, and a device error is the error of the last call made, the first not acknowledged. |
| Scheduler.FishScheduler.Pump | marlin/scheduler.py:53 | one pump call of a recipe, as `Went` says: on a failure the call was made and its error is the device error `Drive` gives |
| Scheduler.FishScheduler.ContinueFixation | marlin/scheduler.py:51-56 | `continue_fixation`: ethanol, the slow speed, 45 minutes, then the fixative, run as `Went` says. The history is a leading part of the script, the lines written and replies read are those `Drive` gives for the calls made, and a device error is the error of the last call made, the first not acknowledged. |
| Scheduler.FishScheduler.Cleave | marlin/scheduler.py:61-63 | the cleave and its 10 minutes, unless skipped, run as `Went` says. The history is a leading part of the script, the lines written and replies read are those `Drive` gives for the calls made, and a device error is the error of the last call made, the first not acknowledged. |
| Scheduler.FishScheduler.Wash | marlin/scheduler.py:65-68 | the wash loads SSC and slows the pump, as `Went` says, then always fails: with the missing `wait_for` exactly when `Drive` acknowledges every call of the wash, and otherwise with the device error of the call that failed |
| Scheduler.FishScheduler.Hybridize | marlin/scheduler.py:70-75 | the probe of the cycle, the slow speed and 30 minutes, then the imaging buffer, 5 minutes and the slow speed, run as `Went` says. The history is a leading part of the script, the lines written and replies read are those `Drive` gives for the calls made, and a device error is the error of the last call made, the first not acknowledged. |
| Scheduler.FishScheduler.Image | marlin/scheduler.py:73-75 | the imaging buffer, 5 minutes, then the slow speed, completing a hybridization as `Went` says. The history is a leading part of the script, the lines written and replies read are those `Drive` gives for the calls made, and a device error is the error of the last call made, the first not acknowledged. |
| Scheduler.FishScheduler.PerformCycle | marlin/scheduler.py:58-75 | `perform_cycle` runs the cycle script as `Went` says, and with the wash enabled it always fails; a failure is a device error of the first unacknowledged call or the missing `wait_for`. The history is a leading part of the script, the lines written and replies read are those `Drive` gives for the calls made, and a device error is the error of the last call made, the first not acknowledged. |
| Scheduler.FishScheduler.Shoot | marlin/scheduler.py:87-90 | a snapshot adds its event to the history and, when there is a microscope, one snap saved as `<folder><tag>.hdf5` |
| Scheduler.FishScheduler.Survey | marlin/scheduler.py:115-118 | the acquisition of timepoint c adds its event to the history and has the outcome `multipoint_aq` gives; on a pass the calls and files are those of the grid in every channel, and whatever the outcome the records grow by what `multipoint_aq` does before it stops (`AcquiredCalls`, `AcquiredFiles`), the stage ending at the first field unless nothing moved |
| Scheduler.FishScheduler.Fixation | marlin/scheduler.py:81-107 | unless skipped, the fixation with its three snapshots at the first field when there is a microscope, run as `Went` says; it fails on the missing first point exactly when there is a microscope, the fixation is not skipped and the grid is empty, and then nothing has been done: history, mirror, link, stage position and the microscope's records are as they were. Otherwise a failure is a device error, and whatever the outcome the records are the move to the first field followed by what the events made |
| Scheduler.FishScheduler.Fixing | marlin/scheduler.py:83-99 | the initial snapshot, `init_fixation`, then the intermediate snapshot, run as `Went` says. The history is a leading part of the script, the lines written and replies read are those `Drive` gives for the calls made, and a device error is the error of the last call made, the first not acknowledged. Whatever the outcome, the microscope's records are what the events made |
| Scheduler.FishScheduler.Fixed | marlin/scheduler.py:101-107 | `continue_fixation`, then the final snapshot, run as `Went` says. The history is a leading part of the script, the lines written and replies read are those `Drive` gives for the calls made, and a device error is the error of the last call made, the first not acknowledged. Whatever the outcome, the microscope's records since the start of the fixation are what its events made |
| Scheduler.FishScheduler.Fix | marlin/scheduler.py:87-107 | the fixation at the first field: the snapshots around `init_fixation` and `continue_fixation`, run as `Went` says; a failure is a device error; on a pass three snaps and their three images, and whatever the outcome the records are what the events made |
| Scheduler.FishScheduler.Run | marlin/scheduler.py:77-122 | `run` goes through its script as `Went` says: the history is a leading part of the script ending at the first failure. A failure is a device error of the first unacknowledged call, the missing `wait_for` of the wash (only with the wash enabled and at least one cycle), the acquisition's error, or an empty grid at the first snapshot, which comes before anything is done. An acquisition error can only come at the first cycle's acquisition: the history is then exactly the fixation and the first cycle with its acquisition, the microscope made the move to the first field, the fixation's three snaps and what `multipoint_aq` did, and only the fixation's images were saved. Whatever the outcome, the records are the first move and then what the events made; a run that passes made every snapshot and acquisition, with their files |
| Scheduler.FishScheduler.Cycling | marlin/scheduler.py:109-122 | the cycle loop, then SSC at the slow speed, continuing the run as `Went` says; a failure is a device error, the acquisition's error, or the missing `wait_for` of the wash, which needs the wash enabled and at least one cycle; an acquisition error leaves the history at the fixation and the first cycle with its acquisition, and whatever the outcome the microscope's records are what the events made |
| Scheduler.FishScheduler.Rounds | marlin/scheduler.py:109-118 | cycles 1 to n, each followed by its acquisition when there is a microscope, until one fails, continuing the run as `Went` says; a failure is a device error, the acquisition's error, or the missing `wait_for` of the wash, which needs the wash enabled and at least one cycle; an acquisition error comes only in the first round, where the history stops, and whatever the outcome the microscope's records are what the events made |
| Scheduler.FishScheduler.Cycle | marlin/scheduler.py:110-118 | one pass of the loop: cycle c, without the cleave when it is the first, then its acquisition, continuing the run as `Went` says; an acquisition error stops the history right after this pass, and the microscope's records stay what the events of the loop made |
| Scheduler.FishScheduler.Acquisition | marlin/scheduler.py:115-118 | the acquisition that ends a cycle adds its event right after the cycle; its outcome is `multipoint_aq`'s, a failure ends the run, and the microscope's records grow by what the acquisition made |

## Left out

- The serial link (`serial.Serial`, `read_until`, buffer resets, closing a
  port) is not modelled as I/O. The link is the list of lines written,
  without their '\n', and the list of replies the device has yet to give.
  Once that list is exhausted, a read returns nothing, which is how a read
  that timed out looks.
- Wall-clock timeouts in `get_heartbeat` and `connect` are not modelled.
  The replies read before the timeout are given as a finite list of polls
  per port. A port that raises an I/O error is `Unavailable`.
- The 0.25 s pacing sleeps between frame lines are not modelled. The
  one-second sleeps of `wait_for` are recorded as events, not slept.
- The voltage and percentage display and the `print` in `updatestate` are
  left out: they are floating-point formatting with no effect on state.
  Every other `print` is left out too.
- All pymmcore calls are reduced to the record of moves, configuration
  selections, focus switches and snaps. Left out:
  - the busy-wait loops;
  - the shutter retry loop (a snap is taken to succeed);
  - `liveview`, `plot_img`, `auto_contrast` and `check_grid_corners`
    (floating point over images).
- `load_xml_multipoints` and `parse_xml_position` are not modelled: they
  are XML parsing and UTF-16 decoding. Only the dispatch to them is.
- Scope.CsvRoundTrip: the fields of a CSV position stay text. Converting
  them to floats and scaling them by 1000 is floating point and not
  modelled.
- Scope.Point: coordinates are exact reals, so the rounding of the float
  stage arithmetic in `set_grid` is not modelled.
- Scope.Microscope.MultipointAq: images are not modelled, only the files
  they are saved to. Left out:
  - the stage position read back for each metadata entry: the stage is
    taken to report the point it was last sent to, so each capture is at
    its field's point;
  - the z position and the timestamps in the metadata;
  - the camera dimensions read at the start;
  - the pandas/h5py formats.
- The directory creation at the start of `run` is not modelled: the output
  folder is taken to exist. As written, that branch calls `os.makedir`,
  which Python's `os` does not have, so it would raise for a missing
  folder.
- Scheduler.FishScheduler.constructor: the float minute-to-second
  conversion `int(mins*60)` is not modelled. The fast and medium loading
  times are given as whole seconds in `Pace`.
- Scheduler.FishScheduler.Run:
  - `grid_coords=None` is modelled as an empty grid; both fail at the first
    index.
  - The stage position set before the first snapshot is recorded as a
    move, but the contract does not state the final stage position.
- Handler.FluidicsHandler.Connect: only the port and read timeout of the
  connection are modelled. With no responder, the code raises before
  opening anything, which the model keeps. A port that fails to open
  during the final reopen is not modelled.
- Handler.GetHeartbeat: the connect code is compared as text, not as bytes.
- The handler's `__init__` is split into the constructor (fields) and
  `Initialize` (connect, default reagent, pump stop). The heartbeat
  `probe` function and the reopen replies are parameters.
