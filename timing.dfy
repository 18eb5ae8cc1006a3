/** The observable history of a run: every call made on the fluidics handler,
    every one-second sleep of `wait_for`, and every imaging call the
    scheduler makes, in order. A recipe is specified as the history it
    produces, and the handler's state after a recipe by replaying that
    history on the handler's mirror. */
module Timing {
  import opened Outcomes
  import opened Protocol
  import Routing

  datatype Event =
    | PumpCall(pump: int)                  // handler.set_pump_state(pump)
    | ValveCall(name: string, valve: int)  // handler.set_valve_state(name, valve)
    | Tick                                 // one sleep(1.) inside wait_for
    | Snapshot(tag: string)                // an image snapped and saved as <tag>.hdf5
    | Acquire(timepoint: int)              // scope.multipoint_aq(..., timepoint)

  /** The history of a call made whatever its outcome: the log records every
      event in the order it happened. */
  class Log {
    var events: seq<Event>

    constructor ()
      ensures events == []
    {
      events := [];
    }
  }

  /** `wait_for(secs)`: int(secs) one-second sleeps, and none for a
      negative count. */
  function Wait(secs: int): (w: seq<Event>)
    ensures |w| == if secs > 0 then secs else 0
    ensures forall i :: 0 <= i < |w| ==> w[i] == Tick
  {
    seq(if secs > 0 then secs else 0, _ => Tick)
  }

  method WaitFor(log: Log, secs: int)
    modifies log
    ensures log.events == old(log.events) + Wait(secs)
  {
    var t := 0;
    while t < secs
      invariant 0 <= t && (t <= secs || t == 0)
      invariant log.events == old(log.events) + Wait(t)
    {
      log.events := log.events + [Tick];
      t := t + 1;
    }
  }

  /** The count of Ticks is the waiting time in seconds. */
  function Seconds(events: seq<Event>): nat
  {
    if events == [] then 0
    else Seconds(events[..|events| - 1]) + (if events[|events| - 1] == Tick then 1 else 0)
  }

  lemma {:induction false} SecondsConcat(a: seq<Event>, b: seq<Event>)
    ensures Seconds(a + b) == Seconds(a) + Seconds(b)
    decreases |b|
  {
    if b == [] {
      assert a + b == a;
    } else {
      var c := b[..|b| - 1];
      assert (a + b)[..|a + b| - 1] == a + c;
      SecondsConcat(a, c);
    }
  }

  /** A wait of `secs` seconds lasts `secs` seconds, or none when `secs` is
      not positive. */
  lemma {:induction false} SecondsOfWait(secs: int)
    ensures Seconds(Wait(secs)) == if secs > 0 then secs else 0
    decreases if secs > 0 then secs else 0
  {
    if secs > 0 {
      assert Wait(secs)[..secs - 1] == Wait(secs - 1);
      SecondsOfWait(secs - 1);
    }
  }

  /** What one event does to the handler's mirror: a pump call sets the pump;
      a valve call with a known reagent sets the valve and the reagent's
      routing vector, and with an unknown one fails before changing anything;
      waits and imaging leave the mirror alone. */
  function Apply(m: Mirror, e: Event): Mirror {
    match e
    case PumpCall(p) => m.(pump := p)
    case ValveCall(name, v) =>
      if name in Routing.Table() then m.(valve := v, routing := Routing.Table()[name]) else m
    case _ => m
  }

  /** The mirror after a history of events. */
  function Replay(m: Mirror, events: seq<Event>): Mirror
    decreases |events|
  {
    if events == [] then m else Apply(Replay(m, events[..|events| - 1]), events[|events| - 1])
  }

  lemma {:induction false} ReplayConcat(m: Mirror, a: seq<Event>, b: seq<Event>)
    ensures Replay(m, a + b) == Replay(Replay(m, a), b)
    decreases |b|
  {
    if b == [] {
      assert a + b == a;
    } else {
      var c := b[..|b| - 1];
      assert (a + b)[..|a + b| - 1] == a + c;
      ReplayConcat(m, a, c);
    }
  }

  /** Waiting leaves the mirror alone. */
  lemma {:induction false} ReplayWait(m: Mirror, secs: int)
    ensures Replay(m, Wait(secs)) == m
    decreases if secs > 0 then secs else 0
  {
    if secs > 0 {
      assert Wait(secs)[..secs - 1] == Wait(secs - 1);
      ReplayWait(m, secs - 1);
    }
  }

  /** A recipe is made of handler calls and one-second waits; snapshots and
      acquisitions belong to the imaging side. */
  predicate Performable(script: seq<Event>) {
    forall i :: 0 <= i < |script| ==> script[i].PumpCall? || script[i].ValveCall? || script[i].Tick?
  }

  lemma PerformableConcat(a: seq<Event>, b: seq<Event>)
    requires Performable(a) && Performable(b)
    ensures Performable(a + b)
  {
    assert forall i :: 0 <= i < |b| ==> (a + b)[|a| + i] == b[i];
  }

  /** The routing mirror holds the power-on vector or a vector of the
      table: the only vectors a valve call can select come from the table,
      and the reverse table knows every one of them. */
  predicate Shaped(m: Mirror) {
    && |m.routing| == Routing.Slots
    && (m.routing == ZeroVector(Routing.Slots) || m.routing in Routing.Inverse())
  }

  lemma ApplyShaped(m: Mirror, e: Event)
    requires Shaped(m)
    ensures Shaped(Apply(m, e))
  {
    if e.ValveCall? && e.name in Routing.Table() {
      Routing.InverseOfTable(e.name);
      Routing.TableShape(e.name);
    }
  }

  /** Every history keeps the routing mirror on the power-on vector or on a
      vector of the table. */
  lemma {:induction false} ReplayShaped(m: Mirror, events: seq<Event>)
    requires Shaped(m)
    ensures Shaped(Replay(m, events))
    decreases |events|
  {
    if events != [] {
      ReplayShaped(m, events[..|events| - 1]);
      ApplyShaped(Replay(m, events[..|events| - 1]), events[|events| - 1]);
    }
  }

  /** A valve call names a reagent of the table. */
  predicate Listed(e: Event) {
    e.ValveCall? ==> e.name in Routing.Table()
  }

  /** Every valve call of the events names a reagent of the table. */
  predicate Known(events: seq<Event>) {
    forall j :: 0 <= j < |events| ==> Listed(events[j])
  }

  lemma KnownConcat(a: seq<Event>, b: seq<Event>)
    ensures Known(a + b) <==> Known(a) && Known(b)
  {
    assert forall j :: 0 <= j < |a| ==> (a + b)[j] == a[j];
    assert forall j :: 0 <= j < |b| ==> (a + b)[|a| + j] == b[j];
  }

  /** A run of `script` from mirror `s0` that made the calls `h` and left the
      mirror `s`: the calls are a leading part of the script, the mirror is
      what they leave, and the run has the outcome the script ends with only
      when it made every call and every valve call found its reagent. A
      script that ends by raising always ends in a failure. */
  predicate Followed(h: seq<Event>, s0: Mirror, script: seq<Event>, ending: Outcome, outcome: Outcome, s: Mirror) {
    && h <= script
    && s == Replay(s0, h)
    && (outcome == ending ==> h == script && Known(script))
    && (ending.Fail? ==> outcome.Fail?)
  }

  /** A script that ran to its end, followed by one more run, is their
      concatenation run from the start. */
  lemma FollowedThen(h1: seq<Event>, s0: Mirror, a: seq<Event>, s1: Mirror,
                     h2: seq<Event>, b: seq<Event>, ending: Outcome, outcome: Outcome, s2: Mirror)
    requires Followed(h1, s0, a, Pass, Pass, s1)
    requires Followed(h2, s1, b, ending, outcome, s2)
    ensures Followed(h1 + h2, s0, a + b, ending, outcome, s2)
  {
    ReplayConcat(s0, h1, h2);
    KnownConcat(a, b);
    assert h1 == a;
  }

  /** A run that failed part-way through a script also stopped part-way
      through every longer script, whatever that one ends with. */
  lemma FollowedExtend(h: seq<Event>, s0: Mirror, a: seq<Event>, ending: Outcome, outcome: Outcome, s: Mirror,
                       b: seq<Event>, later: Outcome)
    requires Followed(h, s0, a, ending, outcome, s)
    requires a <= b && outcome.Fail? && outcome != ending && outcome != later
    ensures Followed(h, s0, b, later, outcome, s)
  {
  }

  /** Waits, snapshots and acquisitions: events that make no handler call. */
  predicate Quiet(events: seq<Event>) {
    forall i :: 0 <= i < |events| ==> events[i].Tick? || events[i].Snapshot? || events[i].Acquire?
  }

  lemma {:induction false} ReplayQuiet(s: Mirror, events: seq<Event>)
    requires Quiet(events)
    ensures Replay(s, events) == s
    decreases |events|
  {
    if events != [] {
      ReplayQuiet(s, events[..|events| - 1]);
    }
  }

  // ---------------------------------------------------------------------
  // The serial link over a history
  // ---------------------------------------------------------------------

  /** How one handler call acts on the serial link, from the mirror before
      it and the replies not yet read. */
  type Link = (Mirror, Event, seq<string>) -> Exchange

  /** The handler's link: a call runs the transition to the mirror it
      selects, except that a valve call with an unknown reagent fails at
      the table lookup before anything is sent. */
  function Call(m: Mirror, e: Event, replies: seq<string>, budget: int): Exchange {
    match e
    case ValveCall(name, _) =>
      if name in Routing.Table() then Transfer(Apply(m, e), replies, budget)
      else Exchange(Fail(UnknownReagent(name)), [], replies)
    case _ => Transfer(Apply(m, e), replies, budget)
  }

  function Handled(budget: int): Link {
    (m, e, replies) => Call(m, e, replies, budget)
  }

  /** A handler call, as opposed to a wait or an imaging event. */
  predicate Calls(e: Event) {
    e.PumpCall? || e.ValveCall?
  }

  /** What a history does on the serial link: its handler calls one after
      the other, each from the mirror and the replies the earlier events
      left, up to the first one that fails, whose outcome is the history's;
      waits and imaging neither write nor read. */
  function Drive(s: Mirror, h: seq<Event>, replies: seq<string>, link: Link): Exchange
    decreases |h|
  {
    if h == [] then Exchange(Pass, [], replies)
    else
      var d := Drive(s, h[..|h| - 1], replies, link);
      if d.outcome.Fail? || !Calls(h[|h| - 1]) then d
      else
        var x := link(Replay(s, h[..|h| - 1]), h[|h| - 1], d.rest);
        Exchange(x.outcome, d.sent + x.sent, x.rest)
  }

  /** A handler call that fails fails with a device error. */
  lemma CallFault(m: Mirror, e: Event, replies: seq<string>, budget: int)
    requires Calls(e)
    ensures var x := Call(m, e, replies, budget); x.outcome.Fail? ==> DeviceFault(x.outcome.error)
  {
  }

  /** A history that fails on the handler's link fails with a device
      error. */
  lemma {:induction false} DriveFault(s: Mirror, h: seq<Event>, replies: seq<string>, budget: int)
    ensures var d := Drive(s, h, replies, Handled(budget)); d.outcome.Fail? ==> DeviceFault(d.outcome.error)
    decreases |h|
  {
    if h != [] {
      var c := h[..|h| - 1];
      DriveFault(s, c, replies, budget);
      if Calls(h[|h| - 1]) {
        CallFault(Replay(s, c), h[|h| - 1], Drive(s, c, replies, Handled(budget)).rest, budget);
      }
    }
  }

  /** One more event after events whose calls were all acknowledged, with
      the link as they left it: `x` is what the event does on the link. */
  lemma Advance(s: Mirror, h: seq<Event>, e: Event, replies: seq<string>, link: Link, x: Exchange)
    requires Drive(s, h, replies, link).outcome == Pass
    requires x == if Calls(e) then link(Replay(s, h), e, Drive(s, h, replies, link).rest)
                  else Exchange(Pass, [], Drive(s, h, replies, link).rest)
    ensures var d := Drive(s, h, replies, link);
      Drive(s, h + [e], replies, link) == Exchange(x.outcome, d.sent + x.sent, x.rest)
  {
    assert (h + [e])[..|h|] == h;
  }

  lemma Associate<T>(start: seq<T>, a: seq<T>, b: seq<T>)
    ensures start + a + b == start + (a + b)
  {
  }

  /** Event number `k` of a history is the handler call that fails: every
      earlier call was acknowledged. */
  predicate Stuck(s: Mirror, h: seq<Event>, replies: seq<string>, link: Link, k: int)
    requires 0 <= k < |h|
  {
    var d := Drive(s, h[..k], replies, link);
    d.outcome == Pass && Calls(h[k]) && link(Replay(s, h[..k]), h[k], d.rest).outcome.Fail?
  }

  /** A history fails exactly when one of its handler calls is not
      acknowledged, given the link as the events before it left it. */
  lemma {:induction false} DriveFails(s: Mirror, h: seq<Event>, replies: seq<string>, link: Link)
    ensures Drive(s, h, replies, link).outcome.Fail? <==>
            exists k :: 0 <= k < |h| && Stuck(s, h, replies, link, k)
    decreases |h|
  {
    if h != [] {
      var n := |h| - 1;
      var c := h[..n];
      DriveFails(s, c, replies, link);
      if Drive(s, c, replies, link).outcome.Fail? {
        var k :| 0 <= k < n && Stuck(s, c, replies, link, k);
        StuckEarlier(s, h, c, replies, link, k);
      } else {
        NoneStuck(s, h, c, replies, link);
        LastStuck(s, h, c, replies, link);
      }
    }
  }

  /** The history up to its stuck call has the outcome, the lines and the
      replies of the whole history. */
  lemma StuckStops(s: Mirror, h: seq<Event>, replies: seq<string>, link: Link, k: int)
    requires 0 <= k < |h| && Stuck(s, h, replies, link, k)
    ensures Drive(s, h, replies, link) == Drive(s, h[..k + 1], replies, link)
    ensures Drive(s, h, replies, link).outcome.Fail?
  {
    assert h[..k + 1][..k] == h[..k];
    StopsWithin(s, h, h[..k + 1], replies, link);
  }

  /** An event before the last one is stuck in a history exactly when it is
      stuck in the history `c` without its last event. */
  lemma StuckEarlier(s: Mirror, h: seq<Event>, c: seq<Event>, replies: seq<string>, link: Link, k: int)
    requires h != [] && c == h[..|h| - 1] && 0 <= k < |c|
    ensures Stuck(s, h, replies, link, k) <==> Stuck(s, c, replies, link, k)
  {
    assert h[..k] == c[..k];
  }

  /** When none of the events of the history `c` without the last event is
      stuck, none of them is stuck in the whole history either. */
  lemma NoneStuck(s: Mirror, h: seq<Event>, c: seq<Event>, replies: seq<string>, link: Link)
    requires h != [] && c == h[..|h| - 1]
    requires forall k :: 0 <= k < |c| ==> !Stuck(s, c, replies, link, k)
    ensures forall k :: 0 <= k < |c| ==> !Stuck(s, h, replies, link, k)
  {
    forall k | 0 <= k < |c|
      ensures !Stuck(s, h, replies, link, k)
    {
      StuckEarlier(s, h, c, replies, link, k);
    }
  }

  /** When the history `c` without the last event passes, the history fails
      exactly when its last event is stuck. */
  lemma LastStuck(s: Mirror, h: seq<Event>, c: seq<Event>, replies: seq<string>, link: Link)
    requires h != [] && c == h[..|h| - 1] && Drive(s, c, replies, link).outcome == Pass
    ensures Drive(s, h, replies, link).outcome.Fail? <==> Stuck(s, h, replies, link, |c|)
  {
    var e := h[|h| - 1];
    var d := Drive(s, c, replies, link);
    var x := if Calls(e) then link(Replay(s, c), e, d.rest) else Exchange(Pass, [], d.rest);
    LastApart(h);
    Advance(s, c, e, replies, link, x);
    assert h[..|c|] == c;
  }

  /** A non-empty sequence is the part before its last element, then that
      element. */
  lemma LastApart<T>(h: seq<T>)
    requires h != []
    ensures h == h[..|h| - 1] + [h[|h| - 1]]
  {
  }

  /** After a history whose calls were all acknowledged, the link goes on
      with the next part from where the first left it. */
  lemma {:induction false} DriveConcat(s: Mirror, a: seq<Event>, b: seq<Event>, replies: seq<string>, link: Link)
    requires Drive(s, a, replies, link).outcome == Pass
    ensures var d1 := Drive(s, a, replies, link);
      var d2 := Drive(Replay(s, a), b, d1.rest, link);
      Drive(s, a + b, replies, link) == Exchange(d2.outcome, d1.sent + d2.sent, d2.rest)
    decreases |b|
  {
    var d1 := Drive(s, a, replies, link);
    if b == [] {
      assert a + b == a;
    } else {
      var c, e := b[..|b| - 1], b[|b| - 1];
      assert (a + b)[..|a + b| - 1] == a + c;
      assert (a + b)[|a + b| - 1] == e;
      DriveConcat(s, a, c, replies, link);
      ReplayConcat(s, a, c);
    }
  }

  /** Once a call has failed, nothing after it reaches the link. */
  lemma {:induction false} DriveStops(s: Mirror, a: seq<Event>, b: seq<Event>, replies: seq<string>, link: Link)
    requires Drive(s, a, replies, link).outcome.Fail?
    ensures Drive(s, a + b, replies, link) == Drive(s, a, replies, link)
    decreases |b|
  {
    if b == [] {
      assert a + b == a;
    } else {
      var c := b[..|b| - 1];
      assert (a + b)[..|a + b| - 1] == a + c;
      DriveStops(s, a, c, replies, link);
    }
  }

  /** Waits, snapshots and acquisitions neither write nor read. */
  lemma {:induction false} DriveQuiet(s: Mirror, events: seq<Event>, replies: seq<string>, link: Link)
    requires Quiet(events)
    ensures Drive(s, events, replies, link) == Exchange(Pass, [], replies)
    decreases |events|
  {
    if events != [] {
      DriveQuiet(s, events[..|events| - 1], replies, link);
    }
  }

  /** A run that made the calls `h` from mirror `s0` with the replies `r0`
      unread, and ended with `outcome`, wrote `sent` and left `rest` unread:
      the link saw what the calls do on it; the calls failed exactly when
      the run ended with a device error, that error being theirs; and then
      the failing call was the last one made. */
  predicate Drove(h: seq<Event>, s0: Mirror, r0: seq<string>, link: Link, outcome: Outcome,
                  sent: seq<string>, rest: seq<string>)
  {
    var d := Drive(s0, h, r0, link);
    && sent == d.sent && rest == d.rest
    && d.outcome == (if outcome.Fail? && DeviceFault(outcome.error) then outcome else Pass)
    && (d.outcome.Fail? ==> h != [] && Drive(s0, h[..|h| - 1], r0, link).outcome == Pass)
  }

  lemma DroveThen(h1: seq<Event>, h2: seq<Event>, s0: Mirror, r0: seq<string>, link: Link, outcome: Outcome,
                  sent1: seq<string>, rest1: seq<string>, sent2: seq<string>, rest2: seq<string>)
    requires Drove(h1, s0, r0, link, Pass, sent1, rest1)
    requires Drove(h2, Replay(s0, h1), rest1, link, outcome, sent2, rest2)
    ensures Drove(h1 + h2, s0, r0, link, outcome, sent1 + sent2, rest2)
  {
    DriveConcat(s0, h1, h2, r0, link);
    if Drive(s0, h1 + h2, r0, link).outcome.Fail? {
      var c := h2[..|h2| - 1];
      assert (h1 + h2)[..|h1 + h2| - 1] == h1 + c;
      DriveConcat(s0, h1, c, r0, link);
    }
  }

  // ---------------------------------------------------------------------
  // Runs between two moments
  // ---------------------------------------------------------------------

  /** What can be observed of the handler at one moment: the history so far,
      the mirror, the lines written to the device and the replies unread. */
  datatype Moment = Moment(events: seq<Event>, mirror: Mirror, written: seq<string>, replies: seq<string>)

  /** Between the moments `p` and `q` the handler, whose calls act on the
      serial link as `link` says, ran `script` (which ends with `ending`) to
      `outcome`: the history grew by a run that followed the script (see
      `Followed`), and the lines written and replies read in between are
      those its calls make on the link, failing where the run failed with a
      device error. */
  predicate Went(p: Moment, q: Moment, script: seq<Event>, ending: Outcome, outcome: Outcome, link: Link) {
    && p.events <= q.events && p.written <= q.written
    && Followed(q.events[|p.events|..], p.mirror, script, ending, outcome, q.mirror)
    && Drove(q.events[|p.events|..], p.mirror, p.replies, link, outcome, q.written[|p.written|..], q.replies)
  }

  /** A run that reached its script's end made exactly that script's
      events. */
  lemma Arrived(p: Moment, q: Moment, script: seq<Event>, link: Link)
    requires Went(p, q, script, Pass, Pass, link)
    ensures q.events == p.events + script
  {
    assert q.events == p.events + q.events[|p.events|..];
  }

  /** A run that made every event of a script, each call acknowledged. */
  lemma Completed(p: Moment, q: Moment, script: seq<Event>, link: Link)
    requires q.events == p.events + script && q.mirror == Replay(p.mirror, script) && Known(script)
    requires var d := Drive(p.mirror, script, p.replies, link);
      d.outcome == Pass && q.written == p.written + d.sent && q.replies == d.rest
    ensures Went(p, q, script, Pass, Pass, link)
  {
    assert q.events[|p.events|..] == script;
    assert q.written[|p.written|..] == Drive(p.mirror, script, p.replies, link).sent;
  }

  /** A run that stopped at event `i` of a script, the first call the link
      did not acknowledge, with a device error. */
  lemma StoppedAt(p: Moment, q: Moment, script: seq<Event>, i: int, link: Link)
    requires 0 <= i < |script|
    requires q.events == p.events + script[..i + 1] && q.mirror == Replay(p.mirror, script[..i + 1])
    requires Drive(p.mirror, script[..i], p.replies, link).outcome == Pass
    requires var d := Drive(p.mirror, script[..i + 1], p.replies, link);
      && d.outcome.Fail? && DeviceFault(d.outcome.error)
      && q.written == p.written + d.sent && q.replies == d.rest
    ensures Went(p, q, script, Pass, Drive(p.mirror, script[..i + 1], p.replies, link).outcome, link)
    ensures Drive(p.mirror, script, p.replies, link) == Drive(p.mirror, script[..i + 1], p.replies, link)
  {
    var h := script[..i + 1];
    assert h[..|h| - 1] == script[..i];
    assert q.events[|p.events|..] == h;
    assert q.written[|p.written|..] == Drive(p.mirror, h, p.replies, link).sent;
    StopsWithin(p.mirror, script, h, p.replies, link);
  }

  /** A script begun by a history whose calls failed ends as that history
      did. */
  lemma StopsWithin(s: Mirror, script: seq<Event>, h: seq<Event>, replies: seq<string>, link: Link)
    requires h <= script && Drive(s, h, replies, link).outcome.Fail?
    ensures Drive(s, script, replies, link) == Drive(s, h, replies, link)
  {
    var t := script[|h|..];
    calc {
      Drive(s, script, replies, link);
      { assert script == h + t; }
      Drive(s, h + t, replies, link);
      { DriveStops(s, h, t, replies, link); }
      Drive(s, h, replies, link);
    }
  }

  /** A part that ran to its end, then the next part, is a run of both. */
  lemma Chain(p: Moment, q: Moment, r: Moment, a: seq<Event>, b: seq<Event>, ending: Outcome, outcome: Outcome,
              link: Link)
    requires Went(p, q, a, Pass, Pass, link) && Went(q, r, b, ending, outcome, link)
    ensures Went(p, r, a + b, ending, outcome, link)
  {
    var h1, h2 := q.events[|p.events|..], r.events[|q.events|..];
    assert r.events[|p.events|..] == h1 + h2;
    assert r.written[|p.written|..] == q.written[|p.written|..] + r.written[|q.written|..];
    FollowedThen(h1, p.mirror, a, q.mirror, h2, b, ending, outcome, r.mirror);
    DroveThen(h1, h2, p.mirror, p.replies, link, outcome, q.written[|p.written|..], q.replies,
              r.written[|q.written|..], r.replies);
  }

  /** A run that failed part-way through a script also failed part-way
      through every longer script, whatever that one ends with. */
  lemma Extend(p: Moment, q: Moment, a: seq<Event>, ending: Outcome, outcome: Outcome, b: seq<Event>,
               later: Outcome, link: Link)
    requires Went(p, q, a, ending, outcome, link)
    requires a <= b && outcome.Fail? && outcome != ending && outcome != later
    ensures Went(p, q, b, later, outcome, link)
  {
  }

  /** A part that ran to its end, followed by a failure outside the
      handler, stops every longer script. */
  lemma Halted(p: Moment, q: Moment, a: seq<Event>, b: seq<Event>, later: Outcome, outcome: Outcome, link: Link)
    requires Went(p, q, a, Pass, Pass, link) && a <= b
    requires outcome.Fail? && outcome != later && !DeviceFault(outcome.error)
    ensures Went(p, q, b, later, outcome, link)
  {
  }

  /** A part that ran to its end, followed by the error it is meant to end
      with, raised outside the handler, is a run to that ending. */
  lemma Raised(p: Moment, q: Moment, a: seq<Event>, ending: Outcome, link: Link)
    requires Went(p, q, a, Pass, Pass, link)
    requires ending.Fail? && !DeviceFault(ending.error)
    ensures Went(p, q, a, ending, ending, link)
  {
  }

  /** A run that failed outside the handler before its first call followed
      every script, with the mirror and the link untouched. */
  lemma Unstarted(p: Moment, script: seq<Event>, ending: Outcome, outcome: Outcome, link: Link)
    requires outcome.Fail? && outcome != ending && !DeviceFault(outcome.error)
    ensures Went(p, p, script, ending, outcome, link)
  {
    assert p.events[|p.events|..] == [];
    assert p.written[|p.written|..] == [];
  }

  /** Waits, snapshots and acquisitions leave the mirror and the link alone
      and cannot fail on the handler. */
  lemma Passive(p: Moment, events: seq<Event>, link: Link)
    requires Quiet(events)
    ensures Went(p, p.(events := p.events + events), events, Pass, Pass, link)
  {
    assert (p.events + events)[|p.events|..] == events;
    assert p.written[|p.written|..] == [];
    ReplayQuiet(p.mirror, events);
    DriveQuiet(p.mirror, events, p.replies, link);
  }

  /** What a run's outcome tells about the link over its whole script, for
      a script that ends normally or with an error of its own: a device
      error is the first failing call of the script; a run that reached the
      end found every call acknowledged; and a script whose calls are all
      acknowledged can only stop on an error outside the handler. */
  lemma Verdict(p: Moment, q: Moment, script: seq<Event>, ending: Outcome, outcome: Outcome, link: Link)
    requires Went(p, q, script, ending, outcome, link)
    requires ending.Fail? ==> !DeviceFault(ending.error)
    ensures outcome.Fail? && DeviceFault(outcome.error) ==>
            Drive(p.mirror, script, p.replies, link).outcome == outcome
    ensures outcome == ending ==> Drive(p.mirror, script, p.replies, link).outcome == Pass
    ensures Drive(p.mirror, script, p.replies, link).outcome == Pass ==>
            !(outcome.Fail? && DeviceFault(outcome.error))
  {
    var h := q.events[|p.events|..];
    assert script == h + script[|h|..];
    if Drive(p.mirror, h, p.replies, link).outcome.Fail? {
      DriveStops(p.mirror, h, script[|h|..], p.replies, link);
    }
  }
}
