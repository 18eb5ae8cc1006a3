/** The FISH recipe sequencer: every step of a run is a fixed sequence of
    pump and valve calls on the fluidics handler and of one-second waits,
    with snapshots and multipoint acquisitions on the microscope in between.
    Each step is specified by the events it appends to the run's log and by
    the handler mirror those events leave. */
module Scheduler {
  import opened Outcomes
  import opened Text
  import opened Protocol
  import opened Timing
  import opened Handler
  import opened Scope
  import Routing

  /** The pump speeds of a run and the two loading durations, in seconds. */
  datatype Pace = Pace(fast: int, medium: int, slow: int, secsFast: int, secsMedium: int)

  // ---------------------------------------------------------------------
  // The recipes, as the events they produce
  // ---------------------------------------------------------------------

  /** `load_reagent(name)`: stop the pump, open the reagent's line with the
      valve at 1, flow fast, then medium with the valve back at 0. */
  function LoadScript(name: string, pace: Pace): seq<Event> {
    [PumpCall(0), ValveCall(name, 1), PumpCall(pace.fast)] + Wait(pace.secsFast)
      + [PumpCall(pace.medium), ValveCall(name, 0)] + Wait(pace.secsMedium)
  }

  /** `init_fixation`. */
  function InitFixationScript(pace: Pace): seq<Event> {
    LoadScript("PFA(half-MeAc)", pace)
  }

  /** `continue_fixation`: ethanol, 45 minutes at the slow speed, then the
      fixative again. */
  function ContinueFixationScript(pace: Pace): seq<Event> {
    LoadScript("EtOH(MeAc)", pace) + [PumpCall(pace.slow)] + Wait(45 * 60) + LoadScript("PFA(half-MeAc)", pace)
  }

  /** The cleaving part of a cycle, skipped by `no_cleave`. */
  function CleaveScript(noCleave: bool, pace: Pace): seq<Event> {
    if noCleave then [] else LoadScript("Cleave", pace) + Wait(10 * 60)
  }

  /** The wash part of a cycle as written: its wait is `self.wait_for`,
      which the scheduler does not define, so the cycle stops there. */
  function WashScript(pace: Pace): seq<Event> {
    LoadScript("SSC", pace) + [PumpCall(pace.slow)]
  }

  /** The probe part of a cycle: hybridize for 30 minutes at the slow
      speed, then fill the imaging buffer. */
  function ProbeScript(c: int, pace: Pace): seq<Event> {
    LoadScript(Routing.ProbeName(c), pace) + [PumpCall(pace.slow)] + Wait(30 * 60)
      + LoadScript("Image", pace) + Wait(5 * 60) + [PumpCall(pace.slow)]
  }

  /** `perform_cycle(c, no_cleave)`. */
  function CycleScript(c: int, noCleave: bool, wash: bool, pace: Pace): seq<Event> {
    CleaveScript(noCleave, pace) + (if wash then WashScript(pace) else ProbeScript(c, pace))
  }

  /** A cycle with the wash enabled always ends by raising. */
  function CycleEnding(wash: bool): Outcome {
    if wash then Fail(MissingWaitFor) else Pass
  }

  /** A snapshot, when there is a microscope. */
  function Shot(imaging: bool, tag: string): seq<Event> {
    if imaging then [Snapshot(tag)] else []
  }

  /** The first half of the fixation part of `run`: the fixative between
      the initial and the intermediate snapshots. */
  function FixingScript(imaging: bool, pace: Pace): seq<Event> {
    Shot(imaging, "initial") + InitFixationScript(pace) + Shot(imaging, "init_fixation")
  }

  /** The second half: `continue_fixation`, then the final snapshot. */
  function FixedScript(imaging: bool, pace: Pace): seq<Event> {
    ContinueFixationScript(pace) + Shot(imaging, "fixed")
  }

  /** The fixation part of `run`, with its snapshots. */
  function Prelude(skip: bool, imaging: bool, pace: Pace): seq<Event> {
    if skip then [] else FixingScript(imaging, pace) + FixedScript(imaging, pace)
  }

  /** One pass of the cycle loop of `run` without the wash: the cycle, then
      its acquisition when there is a microscope. Only cycle 1 skips the
      cleave. */
  function Round(c: int, imaging: bool, pace: Pace): seq<Event> {
    CycleScript(c, c == 1, false, pace) + (if imaging then [Acquire(c)] else [])
  }

  /** Cycles 1 to n, in order. */
  function Cycles(n: int, imaging: bool, pace: Pace): seq<Event>
    decreases n
  {
    if n < 1 then [] else Cycles(n - 1, imaging, pace) + Round(n, imaging, pace)
  }

  /** The end of `run`: stop the pump, select SSC with the valve at 0 and
      flow slowly. */
  function Finale(pace: Pace): seq<Event> {
    [PumpCall(0), ValveCall("SSC", 0), PumpCall(pace.slow)]
  }

  /** `run` for `n` cycles: the fixation unless skipped, the cycles and the
      finale. With the wash enabled the first cycle raises. */
  function RunScript(n: int, wash: bool, skip: bool, imaging: bool, pace: Pace): seq<Event> {
    if wash && n >= 1 then Prelude(skip, imaging, pace) + CycleScript(1, true, true, pace)
    else Prelude(skip, imaging, pace) + Cycles(n, imaging, pace) + Finale(pace)
  }

  function RunEnding(n: int, wash: bool): Outcome {
    if wash && n >= 1 then Fail(MissingWaitFor) else Pass
  }

  // ---------------------------------------------------------------------
  // What the recipes do
  // ---------------------------------------------------------------------

  /** The reagents the recipes name, and their routing vectors. */
  lemma Reagents()
    ensures "SSC" in Routing.Table() && Routing.Table()["SSC"] == [0, 1, 1, 8, 0]
    ensures "PFA(half-MeAc)" in Routing.Table() && Routing.Table()["PFA(half-MeAc)"] == [0, 1, 1, 9, 0]
    ensures "EtOH(MeAc)" in Routing.Table() && Routing.Table()["EtOH(MeAc)"] == [0, 1, 1, 10, 0]
    ensures "Image" in Routing.Table() && Routing.Table()["Image"] == [0, 1, 1, 11, 0]
    ensures "Cleave" in Routing.Table() && Routing.Table()["Cleave"] == [0, 1, 1, 12, 0]
  {
    Routing.TableAt(24);
    Routing.TableAt(25);
    Routing.TableAt(26);
    Routing.TableAt(27);
    Routing.TableAt(28);
  }

  lemma ReplayPair(m: Mirror, a: Event, b: Event)
    ensures Replay(m, [a, b]) == Apply(Apply(m, a), b)
  {
    assert [a, b][..1] == [a];
    assert [a][..0] == [];
    assert Replay(m, [a]) == Apply(Replay(m, []), a);
  }

  lemma ReplayTriple(m: Mirror, a: Event, b: Event, c: Event)
    ensures Replay(m, [a, b, c]) == Apply(Apply(Apply(m, a), b), c)
  {
    assert [a, b, c] == [a, b] + [c];
    ReplayConcat(m, [a, b], [c]);
    ReplayPair(m, a, b);
    assert [c][..0] == [];
  }

  /** Loading a reagent of the table leaves the valve at 0, the pump at the
      medium speed and the routing on that reagent's vector, whatever the
      mirror was. */
  lemma LoadEnds(m: Mirror, name: string, pace: Pace)
    requires name in Routing.Table()
    ensures Replay(m, LoadScript(name, pace)) == Mirror(0, pace.medium, Routing.Table()[name])
  {
    var a := [PumpCall(0), ValveCall(name, 1), PumpCall(pace.fast)];
    var b := [PumpCall(pace.medium), ValveCall(name, 0)];
    ReplayConcat(m, a + Wait(pace.secsFast) + b, Wait(pace.secsMedium));
    ReplayConcat(m, a + Wait(pace.secsFast), b);
    ReplayConcat(m, a, Wait(pace.secsFast));
    ReplayTriple(m, a[0], a[1], a[2]);
    ReplayWait(Replay(m, a), pace.secsFast);
    ReplayPair(Replay(m, a), b[0], b[1]);
    ReplayWait(Replay(m, a + Wait(pace.secsFast) + b), pace.secsMedium);
  }

  lemma LoadPerformable(name: string, pace: Pace)
    ensures Performable(LoadScript(name, pace))
  {
    var a := [PumpCall(0), ValveCall(name, 1), PumpCall(pace.fast)];
    var b := [PumpCall(pace.medium), ValveCall(name, 0)];
    PerformableConcat(a, Wait(pace.secsFast));
    PerformableConcat(a + Wait(pace.secsFast), b);
    PerformableConcat(a + Wait(pace.secsFast) + b, Wait(pace.secsMedium));
  }

  lemma WaitKnown(secs: int)
    ensures Known(Wait(secs))
  {
  }

  /** Both valve calls of a load name the reagent, so the load can pass
      exactly when the reagent is in the table. */
  lemma LoadKnown(name: string, pace: Pace)
    ensures Known(LoadScript(name, pace)) <==> name in Routing.Table()
  {
    var a := [PumpCall(0), ValveCall(name, 1), PumpCall(pace.fast)];
    var b := [PumpCall(pace.medium), ValveCall(name, 0)];
    WaitKnown(pace.secsFast);
    WaitKnown(pace.secsMedium);
    KnownConcat(a, Wait(pace.secsFast));
    KnownConcat(a + Wait(pace.secsFast), b);
    KnownConcat(a + Wait(pace.secsFast) + b, Wait(pace.secsMedium));
    assert Listed(a[1]) <==> name in Routing.Table();
  }

  /** A load lasts its two waits. */
  lemma LoadSeconds(name: string, pace: Pace)
    ensures Seconds(LoadScript(name, pace)) ==
      (if pace.secsFast > 0 then pace.secsFast else 0) + (if pace.secsMedium > 0 then pace.secsMedium else 0)
  {
    var a := [PumpCall(0), ValveCall(name, 1), PumpCall(pace.fast)];
    var b := [PumpCall(pace.medium), ValveCall(name, 0)];
    SecondsConcat(a + Wait(pace.secsFast) + b, Wait(pace.secsMedium));
    SecondsConcat(a + Wait(pace.secsFast), b);
    SecondsConcat(a, Wait(pace.secsFast));
    SecondsOfWait(pace.secsFast);
    SecondsOfWait(pace.secsMedium);
    Untimed(a);
    Untimed(b);
  }

  /** Calls without a wait take no time. */
  lemma {:induction false} Untimed(events: seq<Event>)
    requires forall i :: 0 <= i < |events| ==> events[i] != Tick
    ensures Seconds(events) == 0
    decreases |events|
  {
    if events != [] {
      Untimed(events[..|events| - 1]);
    }
  }

  lemma ReplayOne(m: Mirror, e: Event)
    ensures Replay(m, [e]) == Apply(m, e)
  {
    assert [e][..0] == [];
  }

  /** Whatever a cycle without the wash finds, it leaves the valve at 0,
      the pump at the slow speed and the routing on the imaging buffer's
      vector. */
  lemma CycleEnds(m: Mirror, c: int, noCleave: bool, pace: Pace)
    ensures Replay(m, CycleScript(c, noCleave, false, pace)) == Mirror(0, pace.slow, [0, 1, 1, 11, 0])
  {
    var front := CleaveScript(noCleave, pace) + (LoadScript(Routing.ProbeName(c), pace) + [PumpCall(pace.slow)] + Wait(30 * 60));
    var imaged := front + LoadScript("Image", pace);
    assert CycleScript(c, noCleave, false, pace) == imaged + Wait(5 * 60) + [PumpCall(pace.slow)];
    ReplayConcat(m, imaged + Wait(5 * 60), [PumpCall(pace.slow)]);
    ReplayConcat(m, imaged, Wait(5 * 60));
    ReplayConcat(m, front, LoadScript("Image", pace));
    Reagents();
    LoadEnds(Replay(m, front), "Image", pace);
    ReplayWait(Replay(m, imaged), 5 * 60);
    ReplayOne(Replay(m, imaged + Wait(5 * 60)), PumpCall(pace.slow));
  }

  lemma NoValveCalls(events: seq<Event>)
    requires forall i :: 0 <= i < |events| ==> !events[i].ValveCall?
    ensures Known(events)
  {
  }

  /** A cycle without the wash can pass only for a probe of the table:
      cycles 1 to 24. */
  lemma CycleKnown(c: int, noCleave: bool, pace: Pace)
    ensures Known(CycleScript(c, noCleave, false, pace)) <==> 1 <= c <= Routing.ProbeCount
  {
    Reagents();
    Routing.ProbeNameInTable(c);
    var probe := LoadScript(Routing.ProbeName(c), pace);
    var slow := [PumpCall(pace.slow)];
    LoadKnown("Cleave", pace);
    LoadKnown(Routing.ProbeName(c), pace);
    LoadKnown("Image", pace);
    WaitKnown(10 * 60);
    WaitKnown(30 * 60);
    WaitKnown(5 * 60);
    NoValveCalls(slow);
    KnownConcat(LoadScript("Cleave", pace), Wait(10 * 60));
    KnownConcat(probe, slow);
    KnownConcat(probe + slow, Wait(30 * 60));
    KnownConcat(probe + slow + Wait(30 * 60), LoadScript("Image", pace));
    KnownConcat(probe + slow + Wait(30 * 60) + LoadScript("Image", pace), Wait(5 * 60));
    KnownConcat(probe + slow + Wait(30 * 60) + LoadScript("Image", pace) + Wait(5 * 60), slow);
    KnownConcat(CleaveScript(noCleave, pace), ProbeScript(c, pace));
  }

  // ---------------------------------------------------------------------
  // The order of a run
  // ---------------------------------------------------------------------

  /** What a run does that an operator would see: a reagent loaded (its line
      opened with the valve at 1), a snapshot saved, a timepoint acquired. */
  datatype Milestone = Loaded(reagent: string) | Snapped(tag: string) | Imaged(timepoint: int)

  /** The milestones reached so far, the latest last. */
  datatype Journal = Begun | Noted(before: Journal, latest: Milestone)

  /** The journal after one more event: only an opened line, a snapshot and
      an acquisition are noted. */
  function Note(j: Journal, e: Event): Journal {
    match e
    case ValveCall(name, v) => if v == 1 then Noted(j, Loaded(name)) else j
    case Snapshot(tag) => Noted(j, Snapped(tag))
    case Acquire(c) => Noted(j, Imaged(c))
    case _ => j
  }

  /** The journal after a history of events. */
  function Trail(j: Journal, events: seq<Event>): Journal
    decreases |events|
  {
    if events == [] then j else Note(Trail(j, events[..|events| - 1]), events[|events| - 1])
  }

  lemma {:induction false} TrailConcat(j: Journal, a: seq<Event>, b: seq<Event>)
    ensures Trail(j, a + b) == Trail(Trail(j, a), b)
    decreases |b|
  {
    if b == [] {
      assert a + b == a;
    } else {
      var c := b[..|b| - 1];
      assert (a + b)[..|a + b| - 1] == a + c;
      TrailConcat(j, a, c);
    }
  }

  predicate Silent(e: Event) {
    !(e.ValveCall? && e.valve == 1) && !e.Snapshot? && !e.Acquire?
  }

  /** Pump calls, closing valve calls and waits reach no milestone. */
  lemma {:induction false} Unnoted(j: Journal, events: seq<Event>)
    requires forall i :: 0 <= i < |events| ==> Silent(events[i])
    ensures Trail(j, events) == j
    decreases |events|
  {
    if events != [] {
      Unnoted(j, events[..|events| - 1]);
    }
  }

  lemma Paused(j: Journal, secs: int)
    ensures Trail(j, Wait(secs)) == j
  {
    Unnoted(j, Wait(secs));
  }

  /** A pump call then a wait, or a wait then a pump call, reach no
      milestone. */
  lemma Pumped(j: Journal, speed: int, secs: int)
    ensures Trail(j, [PumpCall(speed)] + Wait(secs)) == j
    ensures Trail(j, Wait(secs) + [PumpCall(speed)]) == j
  {
    TrailConcat(j, [PumpCall(speed)], Wait(secs));
    TrailConcat(j, Wait(secs), [PumpCall(speed)]);
    TrailOne(j, PumpCall(speed));
    Paused(j, secs);
  }

  lemma TrailOne(j: Journal, e: Event)
    ensures Trail(j, [e]) == Note(j, e)
  {
    assert [e][..0] == [];
  }

  /** A load opens exactly one line: its reagent's. */
  lemma LoadMilestones(j: Journal, name: string, pace: Pace)
    ensures Trail(j, LoadScript(name, pace)) == Noted(j, Loaded(name))
  {
    var a := [PumpCall(0), ValveCall(name, 1), PumpCall(pace.fast)];
    var b := [PumpCall(pace.medium), ValveCall(name, 0)];
    var fast, medium := Wait(pace.secsFast), Wait(pace.secsMedium);
    TrailConcat(j, a + fast + b, medium);
    TrailConcat(j, a + fast, b);
    TrailConcat(j, a, fast);
    Opened(j, name, pace.fast);
    var loaded := Noted(j, Loaded(name));
    Paused(loaded, pace.secsFast);
    Unnoted(loaded, b);
    Paused(loaded, pace.secsMedium);
  }

  lemma Opened(j: Journal, name: string, speed: int)
    ensures Trail(j, [PumpCall(0), ValveCall(name, 1), PumpCall(speed)]) == Noted(j, Loaded(name))
  {
    var a := [PumpCall(0), ValveCall(name, 1), PumpCall(speed)];
    assert a == [PumpCall(0), ValveCall(name, 1)] + [PumpCall(speed)];
    assert [PumpCall(0), ValveCall(name, 1)] == [PumpCall(0)] + [ValveCall(name, 1)];
    TrailConcat(j, [PumpCall(0), ValveCall(name, 1)], [PumpCall(speed)]);
    TrailConcat(j, [PumpCall(0)], [ValveCall(name, 1)]);
    TrailOne(j, PumpCall(0));
    TrailOne(j, ValveCall(name, 1));
    TrailOne(Noted(j, Loaded(name)), PumpCall(speed));
  }

  /** The milestones of cycle c of `run`, as the recipe promises them: the
      cleave except on cycle 1, the probe, the imaging buffer, then the
      acquisition of timepoint c when there is a microscope. */
  function RoundPlan(j: Journal, c: int, imaging: bool): Journal {
    var cleaved := if c == 1 then j else Noted(j, Loaded("Cleave"));
    var probed := Noted(Noted(cleaved, Loaded(Routing.ProbeName(c))), Loaded("Image"));
    if imaging then Noted(probed, Imaged(c)) else probed
  }

  /** Cycles 1 to n in ascending order. */
  function CyclesPlan(j: Journal, n: int, imaging: bool): Journal
    decreases n
  {
    if n < 1 then j else RoundPlan(CyclesPlan(j, n - 1, imaging), n, imaging)
  }

  function SnapPlan(j: Journal, imaging: bool, tag: string): Journal {
    if imaging then Noted(j, Snapped(tag)) else j
  }

  /** The milestones of the fixation: the fixative, the ethanol and the
      fixative again, after the initial, intermediate and final snapshots
      when there is a microscope. */
  function FixationPlan(j: Journal, skip: bool, imaging: bool): Journal {
    if skip then j
    else
      var first := Noted(SnapPlan(j, imaging, "initial"), Loaded("PFA(half-MeAc)"));
      var fixed := Noted(Noted(SnapPlan(first, imaging, "init_fixation"), Loaded("EtOH(MeAc)")), Loaded("PFA(half-MeAc)"));
      SnapPlan(fixed, imaging, "fixed")
  }

  lemma ShotMilestones(j: Journal, imaging: bool, tag: string)
    ensures Trail(j, Shot(imaging, tag)) == SnapPlan(j, imaging, tag)
  {
    if imaging {
      TrailOne(j, Snapshot(tag));
    } else {
      Unnoted(j, []);
    }
  }

  lemma ContinueMilestones(j: Journal, pace: Pace)
    ensures Trail(j, ContinueFixationScript(pace)) == Noted(Noted(j, Loaded("EtOH(MeAc)")), Loaded("PFA(half-MeAc)"))
  {
    var e := LoadScript("EtOH(MeAc)", pace);
    var slow := [PumpCall(pace.slow)] + Wait(45 * 60);
    assert ContinueFixationScript(pace) == e + slow + LoadScript("PFA(half-MeAc)", pace);
    TrailConcat(j, e + slow, LoadScript("PFA(half-MeAc)", pace));
    TrailConcat(j, e, slow);
    LoadMilestones(j, "EtOH(MeAc)", pace);
    Pumped(Noted(j, Loaded("EtOH(MeAc)")), pace.slow, 45 * 60);
    LoadMilestones(Noted(j, Loaded("EtOH(MeAc)")), "PFA(half-MeAc)", pace);
  }

  lemma FixationMilestones(j: Journal, skip: bool, imaging: bool, pace: Pace)
    ensures Trail(j, Prelude(skip, imaging, pace)) == FixationPlan(j, skip, imaging)
  {
    if !skip {
      var p := LoadScript("PFA(half-MeAc)", pace);
      var start := Shot(imaging, "initial");
      TrailConcat(j, FixingScript(imaging, pace), FixedScript(imaging, pace));
      TrailConcat(j, start + p, Shot(imaging, "init_fixation"));
      TrailConcat(j, start, p);
      ShotMilestones(j, imaging, "initial");
      var j1 := Noted(SnapPlan(j, imaging, "initial"), Loaded("PFA(half-MeAc)"));
      LoadMilestones(SnapPlan(j, imaging, "initial"), "PFA(half-MeAc)", pace);
      ShotMilestones(j1, imaging, "init_fixation");
      var j2 := SnapPlan(j1, imaging, "init_fixation");
      TrailConcat(j2, ContinueFixationScript(pace), Shot(imaging, "fixed"));
      ContinueMilestones(j2, pace);
      ShotMilestones(Noted(Noted(j2, Loaded("EtOH(MeAc)")), Loaded("PFA(half-MeAc)")), imaging, "fixed");
    }
  }

  /** The milestones of a cycle: the cleave unless skipped, then the wash's
      SSC, or the probe and the imaging buffer. A cycle with the wash never
      opens its probe's line. */
  lemma CycleMilestones(j: Journal, c: int, noCleave: bool, wash: bool, pace: Pace)
    ensures Trail(j, CycleScript(c, noCleave, wash, pace)) ==
      var cleaved := if noCleave then j else Noted(j, Loaded("Cleave"));
      if wash then Noted(cleaved, Loaded("SSC"))
      else Noted(Noted(cleaved, Loaded(Routing.ProbeName(c))), Loaded("Image"))
  {
    var cleaved := if noCleave then j else Noted(j, Loaded("Cleave"));
    CleaveMilestones(j, noCleave, pace);
    TrailConcat(j, CleaveScript(noCleave, pace), if wash then WashScript(pace) else ProbeScript(c, pace));
    if wash {
      TrailConcat(cleaved, LoadScript("SSC", pace), [PumpCall(pace.slow)]);
      LoadMilestones(cleaved, "SSC", pace);
      Unnoted(Noted(cleaved, Loaded("SSC")), [PumpCall(pace.slow)]);
    } else {
      ProbeMilestones(cleaved, c, pace);
    }
  }

  lemma CleaveMilestones(j: Journal, noCleave: bool, pace: Pace)
    ensures Trail(j, CleaveScript(noCleave, pace)) == if noCleave then j else Noted(j, Loaded("Cleave"))
  {
    if noCleave {
      Unnoted(j, []);
    } else {
      TrailConcat(j, LoadScript("Cleave", pace), Wait(10 * 60));
      LoadMilestones(j, "Cleave", pace);
      Paused(Noted(j, Loaded("Cleave")), 10 * 60);
    }
  }

  lemma ProbeMilestones(j: Journal, c: int, pace: Pace)
    ensures Trail(j, ProbeScript(c, pace)) == Noted(Noted(j, Loaded(Routing.ProbeName(c))), Loaded("Image"))
  {
    var probe := LoadScript(Routing.ProbeName(c), pace);
    var soak := [PumpCall(pace.slow)] + Wait(30 * 60);
    var rest := Wait(5 * 60) + [PumpCall(pace.slow)];
    assert ProbeScript(c, pace) == probe + soak + LoadScript("Image", pace) + rest;
    TrailConcat(j, probe + soak + LoadScript("Image", pace), rest);
    TrailConcat(j, probe + soak, LoadScript("Image", pace));
    TrailConcat(j, probe, soak);
    var j1 := Noted(j, Loaded(Routing.ProbeName(c)));
    LoadMilestones(j, Routing.ProbeName(c), pace);
    Pumped(j1, pace.slow, 30 * 60);
    LoadMilestones(j1, "Image", pace);
    Pumped(Noted(j1, Loaded("Image")), pace.slow, 5 * 60);
  }

  lemma RoundMilestones(j: Journal, c: int, imaging: bool, pace: Pace)
    ensures Trail(j, Round(c, imaging, pace)) == RoundPlan(j, c, imaging)
  {
    TrailConcat(j, CycleScript(c, c == 1, false, pace), if imaging then [Acquire(c)] else []);
    CycleMilestones(j, c, c == 1, false, pace);
    var probed := Trail(j, CycleScript(c, c == 1, false, pace));
    if imaging {
      TrailOne(probed, Acquire(c));
    } else {
      Unnoted(probed, []);
    }
  }

  lemma {:induction false} CyclesMilestones(j: Journal, n: int, imaging: bool, pace: Pace)
    ensures Trail(j, Cycles(n, imaging, pace)) == CyclesPlan(j, n, imaging)
    decreases n
  {
    if n < 1 {
      Unnoted(j, []);
    } else {
      CyclesMilestones(j, n - 1, imaging, pace);
      TrailConcat(j, Cycles(n - 1, imaging, pace), Round(n, imaging, pace));
      RoundMilestones(CyclesPlan(j, n - 1, imaging), n, imaging, pace);
    }
  }

  /** After a part that noted `j`, a run with the wash notes the SSC. */
  lemma WashedMilestones(p: seq<Event>, j: Journal, pace: Pace)
    requires Trail(Begun, p) == j
    ensures Trail(Begun, p + CycleScript(1, true, true, pace)) == Noted(j, Loaded("SSC"))
  {
    TrailConcat(Begun, p, CycleScript(1, true, true, pace));
    CycleMilestones(j, 1, true, true, pace);
  }

  /** After a part that noted `j`, the cycles and the finale note what the
      cycles plan says. */
  lemma CycledMilestones(p: seq<Event>, j: Journal, n: int, imaging: bool, pace: Pace)
    requires Trail(Begun, p) == j
    ensures Trail(Begun, p + Cycles(n, imaging, pace) + Finale(pace)) == CyclesPlan(j, n, imaging)
  {
    TrailConcat(Begun, p + Cycles(n, imaging, pace), Finale(pace));
    TrailConcat(Begun, p, Cycles(n, imaging, pace));
    CyclesMilestones(j, n, imaging, pace);
    Unnoted(CyclesPlan(j, n, imaging), Finale(pace));
  }

  /** The order of a run: the fixation unless skipped, then the cycles 1 to
      n in ascending order, each followed by its acquisition when there is a
      microscope; with the wash enabled the first cycle loads SSC where its
      probe was due, and the run stops there. */
  lemma RunMilestones(n: int, wash: bool, skip: bool, imaging: bool, pace: Pace)
    ensures Trail(Begun, RunScript(n, wash, skip, imaging, pace)) ==
      if wash && n >= 1 then Noted(FixationPlan(Begun, skip, imaging), Loaded("SSC"))
      else CyclesPlan(FixationPlan(Begun, skip, imaging), n, imaging)
  {
    var fixed := FixationPlan(Begun, skip, imaging);
    FixationMilestones(Begun, skip, imaging, pace);
    if wash && n >= 1 {
      WashedMilestones(Prelude(skip, imaging, pace), fixed, pace);
    } else {
      CycledMilestones(Prelude(skip, imaging, pace), fixed, n, imaging, pace);
    }
  }

  /** Whatever a run finds, a run without the wash ends with the valve at
      0, the pump at the slow speed and the routing on SSC. */
  lemma RunEnds(m: Mirror, n: int, skip: bool, imaging: bool, pace: Pace)
    ensures Replay(m, RunScript(n, false, skip, imaging, pace)) == Mirror(0, pace.slow, [0, 1, 1, 8, 0])
  {
    var body := Prelude(skip, imaging, pace) + Cycles(n, imaging, pace);
    ReplayConcat(m, body, Finale(pace));
    ReplayTriple(Replay(m, body), PumpCall(0), ValveCall("SSC", 0), PumpCall(pace.slow));
    Reagents();
  }

  lemma {:induction false} CyclesKnown(n: int, imaging: bool, pace: Pace)
    ensures Known(Cycles(n, imaging, pace)) <==> n <= Routing.ProbeCount
    decreases n
  {
    if n >= 1 {
      CyclesKnown(n - 1, imaging, pace);
      CycleKnown(n, n == 1, pace);
      NoValveCalls(if imaging then [Acquire(n)] else []);
      KnownConcat(CycleScript(n, n == 1, false, pace), if imaging then [Acquire(n)] else []);
      KnownConcat(Cycles(n - 1, imaging, pace), Round(n, imaging, pace));
    }
  }

  lemma PreludeKnown(skip: bool, imaging: bool, pace: Pace)
    ensures Known(Prelude(skip, imaging, pace))
  {
    if !skip {
      Reagents();
      var e := LoadScript("EtOH(MeAc)", pace);
      var p := LoadScript("PFA(half-MeAc)", pace);
      var slow := [PumpCall(pace.slow)];
      LoadKnown("EtOH(MeAc)", pace);
      LoadKnown("PFA(half-MeAc)", pace);
      WaitKnown(45 * 60);
      NoValveCalls(slow);
      NoValveCalls(Shot(imaging, "initial"));
      NoValveCalls(Shot(imaging, "init_fixation"));
      NoValveCalls(Shot(imaging, "fixed"));
      KnownConcat(e, slow);
      KnownConcat(e + slow, Wait(45 * 60));
      KnownConcat(e + slow + Wait(45 * 60), p);
      KnownConcat(Shot(imaging, "initial"), p);
      KnownConcat(Shot(imaging, "initial") + p, Shot(imaging, "init_fixation"));
      KnownConcat(ContinueFixationScript(pace), Shot(imaging, "fixed"));
      KnownConcat(FixingScript(imaging, pace), FixedScript(imaging, pace));
    }
  }

  /** A run without the wash can pass only when every cycle finds its
      probe: at most 24 cycles. */
  lemma RunKnown(n: int, skip: bool, imaging: bool, pace: Pace)
    ensures Known(RunScript(n, false, skip, imaging, pace)) <==> n <= Routing.ProbeCount
  {
    Reagents();
    PreludeKnown(skip, imaging, pace);
    CyclesKnown(n, imaging, pace);
    var body := Prelude(skip, imaging, pace) + Cycles(n, imaging, pace);
    KnownConcat(Prelude(skip, imaging, pace), Cycles(n, imaging, pace));
    KnownConcat(body, Finale(pace));
  }

  /** What a load's outcome says: it passes only for a reagent of the
      table, and then leaves the valve at 0, the pump at the medium speed
      and the routing on the reagent's vector. */
  lemma LoadVerdict(h: seq<Event>, s0: Mirror, name: string, pace: Pace, outcome: Outcome, s: Mirror)
    requires Followed(h, s0, LoadScript(name, pace), Pass, outcome, s)
    ensures outcome == Pass ==> name in Routing.Table() && s == Mirror(0, pace.medium, Routing.Table()[name])
    ensures name !in Routing.Table() ==> outcome.Fail?
  {
    LoadKnown(name, pace);
    if outcome == Pass {
      LoadEnds(s0, name, pace);
    }
  }

  /** A wash ends in the error of the missing `wait_for` exactly when both
      of its handler calls are acknowledged; otherwise it ends in the error
      of the call that failed. */
  lemma WashVerdict(p: Moment, q: Moment, pace: Pace, outcome: Outcome, link: Link)
    requires Went(p, q, WashScript(pace), Fail(MissingWaitFor), outcome, link)
    requires outcome.Fail? && (DeviceFault(outcome.error) || outcome.error == MissingWaitFor)
    ensures outcome == Fail(MissingWaitFor) <==> Drive(p.mirror, WashScript(pace), p.replies, link).outcome == Pass
    ensures outcome != Fail(MissingWaitFor) ==> outcome == Drive(p.mirror, WashScript(pace), p.replies, link).outcome
  {
    Verdict(p, q, WashScript(pace), Fail(MissingWaitFor), outcome, link);
  }

  /** What a cycle's outcome says: with the wash it always fails; without,
      it passes only for cycles 1 to 24, and then leaves the valve at 0, the
      pump at the slow speed and the routing on the imaging buffer. */
  lemma CycleVerdict(h: seq<Event>, s0: Mirror, c: int, noCleave: bool, wash: bool, pace: Pace, outcome: Outcome, s: Mirror)
    requires Followed(h, s0, CycleScript(c, noCleave, wash, pace), CycleEnding(wash), outcome, s)
    ensures wash ==> outcome.Fail?
    ensures outcome == Pass ==> 1 <= c <= Routing.ProbeCount && s == Mirror(0, pace.slow, [0, 1, 1, 11, 0])
    ensures !(1 <= c <= Routing.ProbeCount) ==> outcome.Fail?
  {
    if !wash {
      CycleKnown(c, noCleave, pace);
      CycleEnds(s0, c, noCleave, pace);
    }
  }

  /** What a run's outcome says: with the wash and at least one cycle it
      always fails; otherwise it passes only for at most 24 cycles, and then
      leaves the valve at 0, the pump at the slow speed and the routing on
      SSC. */
  lemma RunVerdict(h: seq<Event>, s0: Mirror, n: int, wash: bool, skip: bool, imaging: bool, pace: Pace,
                   outcome: Outcome, s: Mirror)
    requires Followed(h, s0, RunScript(n, wash, skip, imaging, pace), RunEnding(n, wash), outcome, s)
    ensures wash && n >= 1 ==> outcome.Fail?
    ensures outcome == Pass ==> n <= Routing.ProbeCount && s == Mirror(0, pace.slow, [0, 1, 1, 8, 0])
    ensures n > Routing.ProbeCount ==> outcome.Fail?
  {
    if !(wash && n >= 1) {
      assert RunScript(n, wash, skip, imaging, pace) == RunScript(n, false, skip, imaging, pace);
      RunKnown(n, skip, imaging, pace);
      RunEnds(s0, n, skip, imaging, pace);
    }
  }

  // ---------------------------------------------------------------------
  // Composing runs
  // ---------------------------------------------------------------------

  /** The stages after which `continue_fixation` can stop. */
  lemma ContinueStages(pace: Pace)
    ensures LoadScript("EtOH(MeAc)", pace) <= ContinueFixationScript(pace)
    ensures LoadScript("EtOH(MeAc)", pace) + [PumpCall(pace.slow)] <= ContinueFixationScript(pace)
  {
    var ethanol := LoadScript("EtOH(MeAc)", pace);
    var rest := Wait(45 * 60) + LoadScript("PFA(half-MeAc)", pace);
    assert ContinueFixationScript(pace) == ethanol + [PumpCall(pace.slow)] + rest;
  }

  /** The stages after which a hybridization can stop. */
  lemma ProbeStages(c: int, pace: Pace)
    ensures LoadScript(Routing.ProbeName(c), pace) <= ProbeScript(c, pace)
    ensures LoadScript(Routing.ProbeName(c), pace) + [PumpCall(pace.slow)] <= ProbeScript(c, pace)
  {
    var probe := LoadScript(Routing.ProbeName(c), pace);
    var rest := Wait(30 * 60) + LoadScript("Image", pace) + Wait(5 * 60) + [PumpCall(pace.slow)];
    assert ProbeScript(c, pace) == probe + [PumpCall(pace.slow)] + rest;
  }

  /** The fixation is where every run begins. */
  lemma RunStages(n: int, wash: bool, skip: bool, imaging: bool, pace: Pace)
    ensures Prelude(skip, imaging, pace) <= RunScript(n, wash, skip, imaging, pace)
  {
    if !(wash && n >= 1) {
      Associate(Prelude(skip, imaging, pace), Cycles(n, imaging, pace), Finale(pace));
    }
  }

  lemma {:induction false} CyclesPrefix(i: int, n: int, imaging: bool, pace: Pace)
    requires i <= n
    ensures Cycles(i, imaging, pace) <= Cycles(n, imaging, pace)
    decreases n - i
  {
    if i < n {
      CyclesPrefix(i, n - 1, imaging, pace);
      if n >= 1 {
        assert Cycles(n - 1, imaging, pace) <= Cycles(n, imaging, pace);
      }
    }
  }

  lemma StageGrows(p: seq<Event>, k: int, imaging: bool, pace: Pace)
    requires 1 <= k
    ensures p + Cycles(k, imaging, pace) == p + Cycles(k - 1, imaging, pace) + Round(k, imaging, pace)
  {
    Associate(p, Cycles(k - 1, imaging, pace), Round(k, imaging, pace));
  }

  lemma StageLeads(p: seq<Event>, k: int, n: int, imaging: bool, pace: Pace)
    requires 0 <= k && (k <= n || k == 0)
    ensures p + Cycles(k, imaging, pace) <= p + Cycles(n, imaging, pace) + Finale(pace)
  {
    if k <= n {
      CyclesPrefix(k, n, imaging, pace);
    }
    PrefixLead(p, Cycles(k, imaging, pace), Cycles(n, imaging, pace), Finale(pace));
  }

  /** The stages of a run of `n` cycles after the part `p` before them:
      stage k is `p` followed by cycles 1 to k, each stage is the one before
      it followed by its round, and every stage leads the rest of the run. */
  lemma Staging(p: seq<Event>, n: int, imaging: bool, pace: Pace) returns (stages: seq<seq<Event>>)
    ensures |stages| == (if n < 1 then 0 else n) + 1
    ensures stages[0] == p
    ensures stages[|stages| - 1] == p + Cycles(n, imaging, pace)
    ensures forall k {:trigger Round(k, imaging, pace)} :: 1 <= k < |stages| ==>
      stages[k] == stages[k - 1] + Round(k, imaging, pace)
    ensures forall k {:trigger stages[k]} :: 0 <= k < |stages| ==>
      stages[k] <= p + Cycles(n, imaging, pace) + Finale(pace)
  {
    stages := StagesOf(p, n, imaging, pace);
    assert Cycles(0, imaging, pace) == [];
    assert p + [] == p;
    StagesGrow(stages, p, imaging, pace);
    StagesLead(stages, p, n, imaging, pace);
  }

  /** The stage after k cycles, for every k up to n. */
  lemma StagesOf(p: seq<Event>, n: int, imaging: bool, pace: Pace) returns (stages: seq<seq<Event>>)
    ensures |stages| == (if n < 1 then 0 else n) + 1
    ensures forall k {:trigger stages[k]} :: 0 <= k < |stages| ==> stages[k] == p + Cycles(k, imaging, pace)
  {
    stages := seq((if n < 1 then 0 else n) + 1, k => p + Cycles(k, imaging, pace));
  }

  lemma StagesGrow(stages: seq<seq<Event>>, p: seq<Event>, imaging: bool, pace: Pace)
    requires forall k {:trigger stages[k]} :: 0 <= k < |stages| ==> stages[k] == p + Cycles(k, imaging, pace)
    ensures forall k {:trigger Round(k, imaging, pace)} :: 1 <= k < |stages| ==>
      stages[k] == stages[k - 1] + Round(k, imaging, pace)
  {
    forall k | 1 <= k < |stages|
      ensures stages[k] == stages[k - 1] + Round(k, imaging, pace)
    {
      StageGrows(p, k, imaging, pace);
    }
  }

  lemma StagesLead(stages: seq<seq<Event>>, p: seq<Event>, n: int, imaging: bool, pace: Pace)
    requires |stages| == (if n < 1 then 0 else n) + 1
    requires forall k {:trigger stages[k]} :: 0 <= k < |stages| ==> stages[k] == p + Cycles(k, imaging, pace)
    ensures forall k {:trigger stages[k]} :: 0 <= k < |stages| ==>
      stages[k] <= p + Cycles(n, imaging, pace) + Finale(pace)
  {
    forall k | 0 <= k < |stages|
      ensures stages[k] <= p + Cycles(n, imaging, pace) + Finale(pace)
    {
      StageLeads(p, k, n, imaging, pace);
    }
  }

  lemma FinalePerformable(pace: Pace)
    ensures Performable(Finale(pace))
  {
  }

  /** A leading part stays leading behind a common start and before
      anything more. */
  lemma PrefixLead<T>(p: seq<T>, a: seq<T>, b: seq<T>, f: seq<T>)
    requires a <= b
    ensures p + a <= p + b + f
  {
    assert b == a + b[|a|..];
    assert p + b + f == p + a + (b[|a|..] + f);
  }

  /** A leading part of a leading part leads the whole. */
  lemma Shorter<T>(a: seq<T>, b: seq<T>, w: seq<T>)
    requires a + b <= w
    ensures a <= w
  {
    assert a <= a + b;
  }

  lemma Twice<T>(start: seq<T>, x: T, y: T)
    ensures start + [x] + [y] == start + [x, y]
  {
  }

  lemma Thrice<T>(start: seq<T>, x: T, y: T, z: T)
    ensures start + [x, y] + [z] == start + [x, y, z]
  {
  }

  // ---------------------------------------------------------------------
  // What the microscope does during a run
  // ---------------------------------------------------------------------

  /** How `multipoint_aq` ends for a grid and channels: refused when a
      channel is not a defined configuration, then failed on an empty grid
      or an empty channel list. */
  function AcquisitionOutcome(grid: seq<Point>, configs: seq<string>, defined: set<string>): Outcome {
    if Undefined(configs, defined) != [] then Fail(UndefinedConfigs(UndefinedMessage(Undefined(configs, defined))))
    else if grid == [] then Fail(MissingFirstPoint)
    else if configs == [] then Fail(MissingFirstConfig)
    else Pass
  }

  /** The microscope calls of one acquisition that passes. */
  function SurveyCalls(grid: seq<Point>, configs: seq<string>): seq<Action> {
    if grid == [] || configs == [] then [] else [MoveTo(grid[0])] + Visits(grid, configs) + [MoveTo(grid[0])]
  }

  /** The microscope calls of the fixation's snapshots: to the first field,
      then three snaps. */
  function SnapCalls(skip: bool, grid: seq<Point>): seq<Action> {
    if skip || grid == [] then [] else [MoveTo(grid[0]), Snap, Snap, Snap]
  }

  /** Where a snapshot is saved: `<folder><tag>.hdf5`. */
  function SnapshotPath(folder: string, tag: string): string {
    folder + tag + ".hdf5"
  }

  /** The files of the fixation's snapshots. */
  function SnapFiles(folder: string, skip: bool): seq<Saved> {
    if skip then []
    else [ImageFile(SnapshotPath(folder, "initial")), ImageFile(SnapshotPath(folder, "init_fixation")), ImageFile(SnapshotPath(folder, "fixed"))]
  }

  /** The microscope calls of the acquisitions of timepoints 1 to n. */
  function Surveys(grid: seq<Point>, configs: seq<string>, n: int): seq<Action>
    decreases n
  {
    if n < 1 then [] else Surveys(grid, configs, n - 1) + SurveyCalls(grid, configs)
  }

  /** The files of the acquisitions of timepoints 1 to n. */
  function Archive(folder: string, grid: seq<Point>, configs: seq<string>, n: int): seq<Saved>
    decreases n
  {
    if n < 1 then [] else Archive(folder, grid, configs, n - 1) + Files(folder, Captures(grid, configs), n)
  }

  /** The microscope calls `multipoint_aq` makes, whatever its outcome:
      none when a channel is undefined or the grid is empty; with no
      channel, the moves to the first field and back; otherwise those of
      an acquisition that passes. */
  function AcquiredCalls(grid: seq<Point>, configs: seq<string>, defined: set<string>): seq<Action> {
    if Undefined(configs, defined) != [] || grid == [] then []
    else if configs == [] then [MoveTo(grid[0]), MoveTo(grid[0])]
    else SurveyCalls(grid, configs)
  }

  /** The files `multipoint_aq` writes: those of timepoint c when it
      passes, and none otherwise. */
  function AcquiredFiles(folder: string, grid: seq<Point>, configs: seq<string>, defined: set<string>, c: int): seq<Saved> {
    if AcquisitionOutcome(grid, configs, defined) == Pass then Files(folder, Captures(grid, configs), c) else []
  }

  /** The microscope calls one event makes: a snap for a snapshot, the
      calls of `multipoint_aq` for an acquisition, none for a handler
      call or a wait. */
  function ShotOf(e: Event, grid: seq<Point>, configs: seq<string>, defined: set<string>): seq<Action> {
    match e
    case Snapshot(_) => [Snap]
    case Acquire(_) => AcquiredCalls(grid, configs, defined)
    case _ => []
  }

  /** The files one event writes: the snapshot's image, or the files of
      an acquisition. */
  function FileOf(e: Event, folder: string, grid: seq<Point>, configs: seq<string>, defined: set<string>): seq<Saved> {
    match e
    case Snapshot(tag) => [ImageFile(SnapshotPath(folder, tag))]
    case Acquire(c) => AcquiredFiles(folder, grid, configs, defined, c)
    case _ => []
  }

  /** What each event of a history contributes, in order. */
  function Flatten<T>(h: seq<Event>, f: Event -> seq<T>): seq<T>
    decreases |h|
  {
    if h == [] then [] else f(h[0]) + Flatten(h[1..], f)
  }

  function ShotsOf(grid: seq<Point>, configs: seq<string>, defined: set<string>): Event -> seq<Action> {
    e => ShotOf(e, grid, configs, defined)
  }

  function FilesOf(folder: string, grid: seq<Point>, configs: seq<string>, defined: set<string>): Event -> seq<Saved> {
    e => FileOf(e, folder, grid, configs, defined)
  }

  /** The microscope calls the events of a history make, in order. */
  function Shots(h: seq<Event>, grid: seq<Point>, configs: seq<string>, defined: set<string>): seq<Action> {
    Flatten(h, ShotsOf(grid, configs, defined))
  }

  /** The files the events of a history write, in order. */
  function Filed(h: seq<Event>, folder: string, grid: seq<Point>, configs: seq<string>, defined: set<string>): seq<Saved> {
    Flatten(h, FilesOf(folder, grid, configs, defined))
  }

  /** The microscope's records, from `calls0` and `saved0`, are what the
      imaging events `h` of the run made. */
  predicate Pictured(calls0: seq<Action>, saved0: seq<Saved>, calls: seq<Action>, saved: seq<Saved>, h: seq<Event>,
                     grid: seq<Point>, configs: seq<string>, defined: set<string>, folder: string)
  {
    calls == calls0 + Shots(h, grid, configs, defined) && saved == saved0 + Filed(h, folder, grid, configs, defined)
  }

  /** The history has grown from `e0`, and the records from `calls0` and
      `saved0` are what it made since. */
  predicate Recorded(calls0: seq<Action>, saved0: seq<Saved>, calls: seq<Action>, saved: seq<Saved>, e0: seq<Event>, e: seq<Event>,
                     grid: seq<Point>, configs: seq<string>, defined: set<string>, folder: string)
  {
    e0 <= e && Pictured(calls0, saved0, calls, saved, e[|e0|..], grid, configs, defined, folder)
  }

  /** The move to the first field before the fixation's snapshots. */
  function FirstMove(skip: bool, grid: seq<Point>): seq<Action> {
    if skip || grid == [] then [] else [MoveTo(grid[0])]
  }

  /** What two histories in a row contribute is what one does, then the
      other. */
  lemma {:induction false} FlattenConcat<T>(a: seq<Event>, b: seq<Event>, f: Event -> seq<T>)
    ensures Flatten(a + b, f) == Flatten(a, f) + Flatten(b, f)
  {
    if a == [] {
      assert a + b == b;
    } else {
      assert (a + b)[0] == a[0] && (a + b)[1..] == a[1..] + b;
      FlattenConcat(a[1..], b, f);
      Associate(f(a[0]), Flatten(a[1..], f), Flatten(b, f));
    }
  }

  /** A history of one event contributes what that event does. */
  lemma FlattenOne<T>(e: Event, f: Event -> seq<T>)
    ensures Flatten([e], f) == f(e)
  {
    assert [e][0] == e && [e][1..] == [];
    assert Flatten([e], f) == f(e) + Flatten([], f);
    assert f(e) + [] == f(e);
  }

  /** A history whose events each contribute nothing contributes nothing. */
  lemma {:induction false} FlattenNone<T>(h: seq<Event>, f: Event -> seq<T>)
    requires forall i :: 0 <= i < |h| ==> f(h[i]) == []
    ensures Flatten(h, f) == []
  {
    if h != [] {
      assert f(h[0]) == [];
      assert forall i :: 0 <= i < |h[1..]| ==> h[1..][i] == h[i + 1];
      FlattenNone(h[1..], f);
    }
  }

  /** The calls of two histories in a row are those of one, then of the
      other. */
  lemma ShotsConcat(a: seq<Event>, b: seq<Event>, grid: seq<Point>, configs: seq<string>, defined: set<string>)
    ensures Shots(a + b, grid, configs, defined) == Shots(a, grid, configs, defined) + Shots(b, grid, configs, defined)
  {
    FlattenConcat(a, b, ShotsOf(grid, configs, defined));
  }

  /** The files of two histories in a row are those of one, then of the
      other. */
  lemma FiledConcat(a: seq<Event>, b: seq<Event>, folder: string, grid: seq<Point>, configs: seq<string>, defined: set<string>)
    ensures Filed(a + b, folder, grid, configs, defined) == Filed(a, folder, grid, configs, defined) + Filed(b, folder, grid, configs, defined)
  {
    FlattenConcat(a, b, FilesOf(folder, grid, configs, defined));
  }

  /** Handler calls and waits make no microscope call and write no file,
      so neither does any leading part of a recipe. */
  lemma PicturedNone(h: seq<Event>, script: seq<Event>, folder: string, grid: seq<Point>,
                     configs: seq<string>, defined: set<string>)
    requires h <= script && Performable(script)
    ensures Shots(h, grid, configs, defined) == [] && Filed(h, folder, grid, configs, defined) == []
  {
    assert forall i :: 0 <= i < |h| ==> h[i] == script[i];
    FlattenNone(h, ShotsOf(grid, configs, defined));
    FlattenNone(h, FilesOf(folder, grid, configs, defined));
  }

  /** From a moment `e1` on the way from `e0` to `e2`: the imaging since
      `e0` is that up to `e1`, then that since `e1`. */
  lemma PicturedSince(e0: seq<Event>, e1: seq<Event>, e2: seq<Event>, folder: string, grid: seq<Point>,
                      configs: seq<string>, defined: set<string>)
    requires e0 <= e1 <= e2
    ensures Shots(e2[|e0|..], grid, configs, defined) ==
            Shots(e1[|e0|..], grid, configs, defined) + Shots(e2[|e1|..], grid, configs, defined)
    ensures Filed(e2[|e0|..], folder, grid, configs, defined) ==
            Filed(e1[|e0|..], folder, grid, configs, defined) + Filed(e2[|e1|..], folder, grid, configs, defined)
  {
    assert e2[|e0|..] == e1[|e0|..] + e2[|e1|..];
    ShotsConcat(e1[|e0|..], e2[|e1|..], grid, configs, defined);
    FiledConcat(e1[|e0|..], e2[|e1|..], folder, grid, configs, defined);
  }

  /** A history of one event makes that event's calls and files. */
  lemma PicturedOne(e: Event, folder: string, grid: seq<Point>, configs: seq<string>, defined: set<string>)
    ensures Shots([e], grid, configs, defined) == ShotOf(e, grid, configs, defined)
    ensures Filed([e], folder, grid, configs, defined) == FileOf(e, folder, grid, configs, defined)
  {
    FlattenOne(e, ShotsOf(grid, configs, defined));
    FlattenOne(e, FilesOf(folder, grid, configs, defined));
  }

  /** A snapshot appended to the history `e0` accounts for one snap and
      its image. */
  lemma PicturedShot(calls: seq<Action>, saved: seq<Saved>, e0: seq<Event>, tag: string, folder: string,
                     grid: seq<Point>, configs: seq<string>, defined: set<string>)
    ensures Pictured(calls, saved, calls + [Snap], saved + [ImageFile(SnapshotPath(folder, tag))],
                     (e0 + [Snapshot(tag)])[|e0|..], grid, configs, defined, folder)
  {
    assert (e0 + [Snapshot(tag)])[|e0|..] == [Snapshot(tag)];
    PicturedOne(Snapshot(tag), folder, grid, configs, defined);
  }

  /** Two stretches of a run in a row: the records grow by the imaging of
      the first, then of the second. */
  lemma PicturedThen(c0: seq<Action>, s0: seq<Saved>, c1: seq<Action>, s1: seq<Saved>, c2: seq<Action>, s2: seq<Saved>,
                     e0: seq<Event>, e1: seq<Event>, e2: seq<Event>,
                     grid: seq<Point>, configs: seq<string>, defined: set<string>, folder: string)
    requires e0 <= e1 <= e2
    requires Pictured(c0, s0, c1, s1, e1[|e0|..], grid, configs, defined, folder)
    requires Pictured(c1, s1, c2, s2, e2[|e1|..], grid, configs, defined, folder)
    ensures Pictured(c0, s0, c2, s2, e2[|e0|..], grid, configs, defined, folder)
  {
    PicturedSince(e0, e1, e2, folder, grid, configs, defined);
    Associate(c0, Shots(e1[|e0|..], grid, configs, defined), Shots(e2[|e1|..], grid, configs, defined));
    Associate(s0, Filed(e1[|e0|..], folder, grid, configs, defined), Filed(e2[|e1|..], folder, grid, configs, defined));
  }

  /** A stretch of a run that only calls the handler and waits leaves the
      records as they were. */
  lemma PicturedQuiet(calls: seq<Action>, saved: seq<Saved>, e0: seq<Event>, e1: seq<Event>, script: seq<Event>,
                      grid: seq<Point>, configs: seq<string>, defined: set<string>, folder: string)
    requires e0 <= e1 && e1[|e0|..] <= script && Performable(script)
    ensures Pictured(calls, saved, calls, saved, e1[|e0|..], grid, configs, defined, folder)
  {
    PicturedNone(e1[|e0|..], script, folder, grid, configs, defined);
  }

  /** The imaging of one round of the cycle loop is that of its
      acquisition. */
  lemma RoundShots(c: int, pace: Pace, folder: string, grid: seq<Point>, configs: seq<string>, defined: set<string>)
    ensures Shots(Round(c, true, pace), grid, configs, defined) == AcquiredCalls(grid, configs, defined)
    ensures Filed(Round(c, true, pace), folder, grid, configs, defined) == AcquiredFiles(folder, grid, configs, defined, c)
  {
    var cycle := CycleScript(c, c == 1, false, pace);
    CyclePerformable(c, c == 1, false, pace);
    PicturedNone(cycle, cycle, folder, grid, configs, defined);
    ShotsConcat(cycle, [Acquire(c)], grid, configs, defined);
    FiledConcat(cycle, [Acquire(c)], folder, grid, configs, defined);
    PicturedOne(Acquire(c), folder, grid, configs, defined);
  }

  /** The imaging of the fixation part of a run: three snaps and their
      images, unless it is skipped. */
  lemma PreludeShots(skip: bool, pace: Pace, folder: string, grid: seq<Point>, configs: seq<string>, defined: set<string>)
    ensures Shots(Prelude(skip, true, pace), grid, configs, defined) == if skip then [] else [Snap, Snap, Snap]
    ensures Filed(Prelude(skip, true, pace), folder, grid, configs, defined) == SnapFiles(folder, skip)
  {
    if !skip {
      var i, f := InitFixationScript(pace), ContinueFixationScript(pace);
      var s1, s2, s3 := [Snapshot("initial")], [Snapshot("init_fixation")], [Snapshot("fixed")];
      assert Prelude(skip, true, pace) == s1 + i + s2 + f + s3;
      LoadPerformable("PFA(half-MeAc)", pace);
      ContinuePerformable(pace);
      PicturedNone(i, i, folder, grid, configs, defined);
      PicturedNone(f, f, folder, grid, configs, defined);
      PicturedOne(Snapshot("initial"), folder, grid, configs, defined);
      PicturedOne(Snapshot("init_fixation"), folder, grid, configs, defined);
      PicturedOne(Snapshot("fixed"), folder, grid, configs, defined);
      ShotsConcat(s1, i, grid, configs, defined);
      ShotsConcat(s1 + i, s2, grid, configs, defined);
      ShotsConcat(s1 + i + s2, f, grid, configs, defined);
      ShotsConcat(s1 + i + s2 + f, s3, grid, configs, defined);
      FiledConcat(s1, i, folder, grid, configs, defined);
      FiledConcat(s1 + i, s2, folder, grid, configs, defined);
      FiledConcat(s1 + i + s2, f, folder, grid, configs, defined);
      FiledConcat(s1 + i + s2 + f, s3, folder, grid, configs, defined);
    }
  }

  /** A run that stopped at its first acquisition, which failed: the
      fixation's snaps, then what the failed acquisition did, and only the
      fixation's images. */
  lemma FirstAcquisitionFailed(calls0: seq<Action>, saved0: seq<Saved>, calls: seq<Action>, saved: seq<Saved>,
                               skip: bool, pace: Pace, grid: seq<Point>, configs: seq<string>, defined: set<string>, folder: string)
    requires Pictured(calls0, saved0, calls, saved, Prelude(skip, true, pace) + Round(1, true, pace), grid, configs, defined, folder)
    requires AcquisitionOutcome(grid, configs, defined).Fail?
    ensures calls == calls0 + (if skip then [] else [Snap, Snap, Snap]) + AcquiredCalls(grid, configs, defined)
    ensures saved == saved0 + SnapFiles(folder, skip)
  {
    PreludeShots(skip, pace, folder, grid, configs, defined);
    RoundShots(1, pace, folder, grid, configs, defined);
    ShotsConcat(Prelude(skip, true, pace), Round(1, true, pace), grid, configs, defined);
    FiledConcat(Prelude(skip, true, pace), Round(1, true, pace), folder, grid, configs, defined);
    Associate(calls0, if skip then [] else [Snap, Snap, Snap], AcquiredCalls(grid, configs, defined));
    assert SnapFiles(folder, skip) + [] == SnapFiles(folder, skip);
  }

  /** The records of a run: the fixation's, then the cycles'; and when
      the run stopped at its first acquisition, which failed, what
      `FirstAcquisitionFailed` says. */
  lemma RunRecords(c0: seq<Action>, s0: seq<Saved>, c1: seq<Action>, s1: seq<Saved>, c2: seq<Action>, s2: seq<Saved>,
                   e0: seq<Event>, e1: seq<Event>, e2: seq<Event>, failedFirst: bool,
                   skip: bool, pace: Pace, grid: seq<Point>, configs: seq<string>, defined: set<string>, folder: string)
    requires e0 <= e1 <= e2
    requires Pictured(c0, s0, c1, s1, e1[|e0|..], grid, configs, defined, folder)
    requires Pictured(c1, s1, c2, s2, e2[|e1|..], grid, configs, defined, folder)
    requires failedFirst ==>
      e2 == e0 + Prelude(skip, true, pace) + Round(1, true, pace) && AcquisitionOutcome(grid, configs, defined).Fail?
    ensures Pictured(c0, s0, c2, s2, e2[|e0|..], grid, configs, defined, folder)
    ensures failedFirst ==>
      && c2 == c0 + (if skip then [] else [Snap, Snap, Snap]) + AcquiredCalls(grid, configs, defined)
      && s2 == s0 + SnapFiles(folder, skip)
  {
    PicturedThen(c0, s0, c1, s1, c2, s2, e0, e1, e2, grid, configs, defined, folder);
    if failedFirst {
      Associate(e0, Prelude(skip, true, pace), Round(1, true, pace));
      assert e2[|e0|..] == Prelude(skip, true, pace) + Round(1, true, pace);
      FirstAcquisitionFailed(c0, s0, c2, s2, skip, pace, grid, configs, defined, folder);
    }
  }

  /** A stretch of handler calls and waits after a pictured stretch keeps
      the records pictured. */
  lemma PicturedAfter(calls0: seq<Action>, saved0: seq<Saved>, calls: seq<Action>, saved: seq<Saved>,
                      e0: seq<Event>, e1: seq<Event>, e2: seq<Event>, script: seq<Event>,
                      grid: seq<Point>, configs: seq<string>, defined: set<string>, folder: string)
    requires e0 <= e1 <= e2 && e2[|e1|..] <= script && Performable(script)
    requires Pictured(calls0, saved0, calls, saved, e1[|e0|..], grid, configs, defined, folder)
    ensures Pictured(calls0, saved0, calls, saved, e2[|e0|..], grid, configs, defined, folder)
  {
    PicturedQuiet(calls, saved, e1, e2, script, grid, configs, defined, folder);
    PicturedThen(calls0, saved0, calls, saved, calls, saved, e0, e1, e2, grid, configs, defined, folder);
  }

  lemma ContinuePerformable(pace: Pace)
    ensures Performable(ContinueFixationScript(pace))
  {
    LoadPerformable("EtOH(MeAc)", pace);
    LoadPerformable("PFA(half-MeAc)", pace);
    PerformableConcat(LoadScript("EtOH(MeAc)", pace), [PumpCall(pace.slow)]);
    PerformableConcat(LoadScript("EtOH(MeAc)", pace) + [PumpCall(pace.slow)], Wait(45 * 60));
    PerformableConcat(LoadScript("EtOH(MeAc)", pace) + [PumpCall(pace.slow)] + Wait(45 * 60), LoadScript("PFA(half-MeAc)", pace));
  }

  lemma CyclePerformable(c: int, noCleave: bool, wash: bool, pace: Pace)
    ensures Performable(CycleScript(c, noCleave, wash, pace))
  {
    LoadPerformable("Cleave", pace);
    LoadPerformable("SSC", pace);
    LoadPerformable(Routing.ProbeName(c), pace);
    LoadPerformable("Image", pace);
    PerformableConcat(LoadScript("Cleave", pace), Wait(10 * 60));
    PerformableConcat(LoadScript("SSC", pace), [PumpCall(pace.slow)]);
    var a := LoadScript(Routing.ProbeName(c), pace) + [PumpCall(pace.slow)];
    PerformableConcat(LoadScript(Routing.ProbeName(c), pace), [PumpCall(pace.slow)]);
    PerformableConcat(a, Wait(30 * 60));
    PerformableConcat(a + Wait(30 * 60), LoadScript("Image", pace));
    PerformableConcat(a + Wait(30 * 60) + LoadScript("Image", pace), Wait(5 * 60));
    PerformableConcat(a + Wait(30 * 60) + LoadScript("Image", pace) + Wait(5 * 60), [PumpCall(pace.slow)]);
    PerformableConcat(CleaveScript(noCleave, pace), if wash then WashScript(pace) else ProbeScript(c, pace));
  }

  // ---------------------------------------------------------------------
  // The scheduler
  // ---------------------------------------------------------------------

  /** `FISH_scheduler`: drives the fluidics handler and, when there is one,
      the microscope through the recipes. The run's history is the
      handler's log, to which the scheduler adds its waits, snapshots and
      acquisitions. */
  class FishScheduler {
    const handler: FluidicsHandler
    /** None when no microscope is attached (`no_scope`). */
    const scope: Option<Microscope>
    const skipFixation: bool
    const includeWash: bool
    const pace: Pace
    const channels: seq<string>
    const folder: string

    constructor (handler: FluidicsHandler, scope: Option<Microscope>, skipFixation: bool, includeWash: bool,
                 pace: Pace, channels: seq<string>, folder: string)
      ensures this.handler == handler && this.scope == scope
      ensures this.skipFixation == skipFixation && this.includeWash == includeWash
      ensures this.pace == pace && this.channels == channels && this.folder == folder
    {
      this.handler := handler;
      this.scope := scope;
      this.skipFixation := skipFixation;
      this.includeWash := includeWash;
      this.pace := pace;
      this.channels := channels;
      this.folder := folder;
    }

    /** The microscope, when there is one. */
    function Scopes(): set<Microscope> {
      if scope.Some? then {scope.value} else {}
    }

    /** `load_reagent(name)`: a failure is the error of the failing call. */
    method LoadReagent(name: string) returns (outcome: Outcome)
      modifies handler`valve, handler`pump, handler`routing, handler`written, handler`replies, handler.log
      ensures Went(old(handler.Here()), handler.Here(), LoadScript(name, pace), Pass, outcome, Handled(handler.handshakes))
      ensures outcome == Drive(old(handler.State()), LoadScript(name, pace), old(handler.replies),
                               Handled(handler.handshakes)).outcome
      ensures outcome.Fail? ==> DeviceFault(outcome.error)
    {
      LoadPerformable(name, pace);
      outcome := handler.Perform(LoadScript(name, pace));
    }

    /** `wait_for(secs)`, on the run's history. */
    method Pause(secs: int)
      modifies handler.log
      ensures Went(old(handler.Here()), handler.Here(), Wait(secs), Pass, Pass, Handled(handler.handshakes))
    {
      ghost var p0 := handler.Here();
      WaitFor(handler.log, secs);
      Passive(p0, Wait(secs), Handled(handler.handshakes));
      assert handler.Here() == p0.(events := p0.events + Wait(secs));
    }

    /** `init_fixation`. */
    method InitFixation() returns (outcome: Outcome)
      modifies handler`valve, handler`pump, handler`routing, handler`written, handler`replies, handler.log
      ensures Went(old(handler.Here()), handler.Here(), InitFixationScript(pace), Pass, outcome, Handled(handler.handshakes))
      ensures outcome.Fail? ==> DeviceFault(outcome.error)
    {
      outcome := LoadReagent("PFA(half-MeAc)");
    }

    /** One pump call of a recipe. */
    method Pump(speed: int) returns (outcome: Outcome)
      modifies handler`valve, handler`pump, handler`routing, handler`written, handler`replies, handler.log
      ensures Went(old(handler.Here()), handler.Here(), [PumpCall(speed)], Pass, outcome, Handled(handler.handshakes))
      ensures outcome.Fail? ==> DeviceFault(outcome.error)
    {
      outcome := handler.Perform([PumpCall(speed)]);
    }

    /** `continue_fixation`. */
    method ContinueFixation() returns (outcome: Outcome)
      modifies handler`valve, handler`pump, handler`routing, handler`written, handler`replies, handler.log
      ensures Went(old(handler.Here()), handler.Here(), ContinueFixationScript(pace), Pass, outcome, Handled(handler.handshakes))
      ensures outcome.Fail? ==> DeviceFault(outcome.error)
    {
      ghost var p0, link := handler.Here(), Handled(handler.handshakes);
      ghost var whole := ContinueFixationScript(pace);
      ghost var done := LoadScript("EtOH(MeAc)", pace);
      ContinueStages(pace);
      outcome := LoadReagent("EtOH(MeAc)");
      if outcome.Fail? {
        Extend(p0, handler.Here(), done, Pass, outcome, whole, Pass, link);
        return;
      }
      ghost var p1 := handler.Here();
      outcome := Pump(pace.slow);
      Chain(p0, p1, handler.Here(), done, [PumpCall(pace.slow)], Pass, outcome, link);
      done := done + [PumpCall(pace.slow)];
      if outcome.Fail? {
        Extend(p0, handler.Here(), done, Pass, outcome, whole, Pass, link);
        return;
      }
      p1 := handler.Here();
      Pause(45 * 60);
      Chain(p0, p1, handler.Here(), done, Wait(45 * 60), Pass, Pass, link);
      done := done + Wait(45 * 60);
      p1 := handler.Here();
      outcome := LoadReagent("PFA(half-MeAc)");
      Chain(p0, p1, handler.Here(), done, LoadScript("PFA(half-MeAc)", pace), Pass, outcome, link);
    }

    /** The cleaving part of `perform_cycle`. */
    method Cleave(noCleave: bool) returns (outcome: Outcome)
      modifies handler`valve, handler`pump, handler`routing, handler`written, handler`replies, handler.log
      ensures Went(old(handler.Here()), handler.Here(), CleaveScript(noCleave, pace), Pass, outcome, Handled(handler.handshakes))
      ensures outcome.Fail? ==> DeviceFault(outcome.error)
    {
      ghost var p0, link := handler.Here(), Handled(handler.handshakes);
      if noCleave {
        Passive(p0, [], link);
        assert p0.(events := p0.events + []) == p0;
        return Pass;
      }
      outcome := LoadReagent("Cleave");
      if outcome.Fail? {
        Extend(p0, handler.Here(), LoadScript("Cleave", pace), Pass, outcome, CleaveScript(noCleave, pace), Pass, link);
        return;
      }
      ghost var p1 := handler.Here();
      Pause(10 * 60);
      Chain(p0, p1, handler.Here(), LoadScript("Cleave", pace), Wait(10 * 60), Pass, Pass, link);
    }

    /** The wash part of `perform_cycle`: SSC, the slow speed, then the
        call to the missing `self.wait_for`, which raises; it ends in that
        error exactly when both handler calls are acknowledged. */
    method Wash() returns (outcome: Outcome)
      modifies handler`valve, handler`pump, handler`routing, handler`written, handler`replies, handler.log
      ensures Went(old(handler.Here()), handler.Here(), WashScript(pace), Fail(MissingWaitFor), outcome, Handled(handler.handshakes))
      ensures outcome.Fail? && (DeviceFault(outcome.error) || outcome.error == MissingWaitFor)
      ensures outcome == Fail(MissingWaitFor) <==>
        Drive(old(handler.State()), WashScript(pace), old(handler.replies), Handled(handler.handshakes)).outcome == Pass
    {
      ghost var p0, link := handler.Here(), Handled(handler.handshakes);
      outcome := LoadReagent("SSC");
      if outcome.Fail? {
        Extend(p0, handler.Here(), LoadScript("SSC", pace), Pass, outcome, WashScript(pace), Fail(MissingWaitFor), link);
      } else {
        ghost var p1 := handler.Here();
        outcome := Pump(pace.slow);
        Chain(p0, p1, handler.Here(), LoadScript("SSC", pace), [PumpCall(pace.slow)], Pass, outcome, link);
        if outcome.Fail? {
          Extend(p0, handler.Here(), WashScript(pace), Pass, outcome, WashScript(pace), Fail(MissingWaitFor), link);
        } else {
          outcome := Fail(MissingWaitFor);
          Raised(p0, handler.Here(), WashScript(pace), outcome, link);
        }
      }
      WashVerdict(p0, handler.Here(), pace, outcome, link);
    }

    /** The hybridization part of `perform_cycle`: the probe of cycle `c`,
        30 minutes at the slow speed, the imaging buffer, 5 minutes, then
        the slow speed. */
    method Hybridize(c: int) returns (outcome: Outcome)
      modifies handler`valve, handler`pump, handler`routing, handler`written, handler`replies, handler.log
      ensures Went(old(handler.Here()), handler.Here(), ProbeScript(c, pace), Pass, outcome, Handled(handler.handshakes))
      ensures outcome.Fail? ==> DeviceFault(outcome.error)
    {
      ghost var p0, link := handler.Here(), Handled(handler.handshakes);
      ghost var whole := ProbeScript(c, pace);
      ghost var done := LoadScript(Routing.ProbeName(c), pace);
      ProbeStages(c, pace);
      outcome := LoadReagent("Probe " + IntToString(c));
      if outcome.Fail? {
        Extend(p0, handler.Here(), done, Pass, outcome, whole, Pass, link);
        return;
      }
      ghost var p1 := handler.Here();
      outcome := Pump(pace.slow);
      Chain(p0, p1, handler.Here(), done, [PumpCall(pace.slow)], Pass, outcome, link);
      done := done + [PumpCall(pace.slow)];
      if outcome.Fail? {
        Extend(p0, handler.Here(), done, Pass, outcome, whole, Pass, link);
        return;
      }
      p1 := handler.Here();
      Pause(30 * 60);
      Chain(p0, p1, handler.Here(), done, Wait(30 * 60), Pass, Pass, link);
      done := done + Wait(30 * 60);
      outcome := Image(p0, done, whole);
    }

    /** The imaging buffer, 5 minutes, then the slow speed: the end of a
        hybridization. */
    method Image(ghost p0: Moment, ghost done: seq<Event>, ghost whole: seq<Event>) returns (outcome: Outcome)
      requires whole == done + LoadScript("Image", pace) + Wait(5 * 60) + [PumpCall(pace.slow)]
      requires Went(p0, handler.Here(), done, Pass, Pass, Handled(handler.handshakes))
      modifies handler`valve, handler`pump, handler`routing, handler`written, handler`replies, handler.log
      ensures Went(p0, handler.Here(), whole, Pass, outcome, Handled(handler.handshakes))
      ensures outcome.Fail? ==> DeviceFault(outcome.error)
    {
      ghost var link := Handled(handler.handshakes);
      ghost var p1 := handler.Here();
      ghost var sofar := done;
      outcome := LoadReagent("Image");
      Chain(p0, p1, handler.Here(), sofar, LoadScript("Image", pace), Pass, outcome, link);
      sofar := sofar + LoadScript("Image", pace);
      if outcome.Fail? {
        Extend(p0, handler.Here(), sofar, Pass, outcome, whole, Pass, link);
        return;
      }
      p1 := handler.Here();
      Pause(5 * 60);
      Chain(p0, p1, handler.Here(), sofar, Wait(5 * 60), Pass, Pass, link);
      sofar := sofar + Wait(5 * 60);
      p1 := handler.Here();
      outcome := Pump(pace.slow);
      Chain(p0, p1, handler.Here(), sofar, [PumpCall(pace.slow)], Pass, outcome, link);
    }

    /** `perform_cycle(c, no_cleave)`. */
    method PerformCycle(c: int, noCleave: bool) returns (outcome: Outcome)
      modifies handler`valve, handler`pump, handler`routing, handler`written, handler`replies, handler.log
      ensures Went(old(handler.Here()), handler.Here(), CycleScript(c, noCleave, includeWash, pace), CycleEnding(includeWash), outcome, Handled(handler.handshakes))
      ensures outcome.Fail? ==> DeviceFault(outcome.error) || (includeWash && outcome.error == MissingWaitFor)
    {
      ghost var p0, link := handler.Here(), Handled(handler.handshakes);
      outcome := Cleave(noCleave);
      if outcome.Fail? {
        Extend(p0, handler.Here(), CleaveScript(noCleave, pace), Pass, outcome,
               CycleScript(c, noCleave, includeWash, pace), CycleEnding(includeWash), link);
        return;
      }
      ghost var p1 := handler.Here();
      if includeWash {
        outcome := Wash();
        Chain(p0, p1, handler.Here(), CleaveScript(noCleave, pace), WashScript(pace), Fail(MissingWaitFor), outcome, link);
      } else {
        outcome := Hybridize(c);
        Chain(p0, p1, handler.Here(), CleaveScript(noCleave, pace), ProbeScript(c, pace), Pass, outcome, link);
      }
    }

    /** A snapshot saved as `<folder><tag>.hdf5`, when there is a
        microscope. */
    method Shoot(tag: string)
      modifies handler.log, Scopes()
      ensures Went(old(handler.Here()), handler.Here(), Shot(scope.Some?, tag), Pass, Pass, Handled(handler.handshakes))
      ensures handler.log.events == old(handler.log.events) + Shot(scope.Some?, tag)
      ensures scope.Some? ==>
        && scope.value.calls == old(scope.value.calls) + [Snap]
        && scope.value.saved == old(scope.value.saved) + [ImageFile(SnapshotPath(folder, tag))]
    {
      ghost var p0 := handler.Here();
      if scope.Some? {
        scope.value.SnapImage();
        scope.value.SaveImage(SnapshotPath(folder, tag));
        handler.log.events := handler.log.events + [Snapshot(tag)];
      }
      Passive(p0, Shot(scope.Some?, tag), Handled(handler.handshakes));
      assert handler.Here() == p0.(events := p0.events + Shot(scope.Some?, tag));
    }

    /** The acquisition of timepoint `c` over the grid, in all channels. */
    method Survey(grid: seq<Point>, c: int) returns (outcome: Outcome)
      requires scope.Some?
      modifies handler.log, Scopes()
      ensures Went(old(handler.Here()), handler.Here(), [Acquire(c)], Pass, Pass, Handled(handler.handshakes))
      ensures handler.log.events == old(handler.log.events) + [Acquire(c)]
      ensures outcome == AcquisitionOutcome(grid, channels, scope.value.defined)
      ensures outcome == Pass ==>
        && scope.value.calls == old(scope.value.calls) + SurveyCalls(grid, channels)
        && scope.value.saved == old(scope.value.saved) + Files(folder, Captures(grid, channels), c)
      ensures Pictured(old(scope.value.calls), old(scope.value.saved), scope.value.calls, scope.value.saved,
                       handler.log.events[|old(handler.log.events)|..], grid, channels, scope.value.defined, folder)
      ensures scope.value.position ==
        if Undefined(channels, scope.value.defined) != [] || grid == [] then old(scope.value.position) else grid[0]
    {
      ghost var p0 := handler.Here();
      var microscope := scope.value;
      handler.log.events := handler.log.events + [Acquire(c)];
      Passive(p0, [Acquire(c)], Handled(handler.handshakes));
      assert handler.Here() == p0.(events := p0.events + [Acquire(c)]);
      outcome := microscope.MultipointAq(grid, channels, c, folder);
      assert handler.log.events[|old(handler.log.events)|..] == [Acquire(c)];
      PicturedOne(Acquire(c), folder, grid, channels, microscope.defined);
      if outcome == Pass {
        Associate(old(microscope.calls), [MoveTo(grid[0])] + Visits(grid, channels), [MoveTo(grid[0])]);
        Associate(old(microscope.calls), [MoveTo(grid[0])], Visits(grid, channels));
      }
    }

    /** The fixation part of `run`: unless skipped, snapshots at the first
        field around `init_fixation` and `continue_fixation` when there is
        a microscope; an empty grid fails before anything happens. */
    method Fixation(grid: seq<Point>) returns (outcome: Outcome)
      modifies handler`valve, handler`pump, handler`routing, handler`written, handler`replies, handler.log, Scopes()
      ensures Went(old(handler.Here()), handler.Here(), Prelude(skipFixation, scope.Some?, pace), Pass, outcome, Handled(handler.handshakes))
      ensures outcome == Fail(MissingFirstPoint) <==> scope.Some? && !skipFixation && grid == []
      ensures outcome == Fail(MissingFirstPoint) ==>
        && handler.Here() == old(handler.Here())
        && scope.value.position == old(scope.value.position)
        && scope.value.calls == old(scope.value.calls) && scope.value.saved == old(scope.value.saved)
      ensures outcome.Fail? ==> DeviceFault(outcome.error) || outcome == Fail(MissingFirstPoint)
      ensures outcome == Pass && scope.Some? ==>
        && scope.value.calls == old(scope.value.calls) + SnapCalls(skipFixation, grid)
        && scope.value.saved == old(scope.value.saved) + SnapFiles(folder, skipFixation)
      ensures scope.Some? ==>
        Pictured(old(scope.value.calls) + FirstMove(skipFixation, grid), old(scope.value.saved), scope.value.calls, scope.value.saved,
                 handler.log.events[|old(handler.log.events)|..], grid, channels, scope.value.defined, folder)
    {
      ghost var p0, link := handler.Here(), Handled(handler.handshakes);
      if skipFixation {
        Passive(p0, [], link);
        assert p0.(events := p0.events + []) == p0;
        assert handler.log.events[|p0.events|..] == [];
        return Pass;
      }
      if scope.Some? {
        if |grid| == 0 {
          Unstarted(p0, Prelude(skipFixation, scope.Some?, pace), Pass, Fail(MissingFirstPoint), link);
          assert handler.log.events[|p0.events|..] == [];
          return Fail(MissingFirstPoint);
        }
        scope.value.Move(grid[0]);
      }
      assert handler.Here() == p0;
      outcome := Fix(grid);
      if scope.Some? && outcome == Pass {
        Associate(old(scope.value.calls), [MoveTo(grid[0])], [Snap, Snap, Snap]);
      }
    }

    /** The fixation itself, once at the first field: `init_fixation`
        between the initial and intermediate snapshots, then
        `continue_fixation` and the final snapshot. */
    method Fix(ghost grid: seq<Point>) returns (outcome: Outcome)
      modifies handler`valve, handler`pump, handler`routing, handler`written, handler`replies, handler.log, Scopes()
      ensures Went(old(handler.Here()), handler.Here(), Prelude(false, scope.Some?, pace), Pass, outcome, Handled(handler.handshakes))
      ensures outcome.Fail? ==> DeviceFault(outcome.error)
      ensures outcome == Pass && scope.Some? ==>
        && scope.value.calls == old(scope.value.calls) + [Snap, Snap, Snap]
        && scope.value.saved == old(scope.value.saved) + SnapFiles(folder, false)
      ensures scope.Some? ==>
        Pictured(old(scope.value.calls), old(scope.value.saved), scope.value.calls, scope.value.saved,
                 handler.log.events[|old(handler.log.events)|..], grid, channels, scope.value.defined, folder)
    {
      ghost var p0, link := handler.Here(), Handled(handler.handshakes);
      outcome := Fixing(grid);
      if outcome.Fail? {
        Extend(p0, handler.Here(), FixingScript(scope.Some?, pace), Pass, outcome, Prelude(false, scope.Some?, pace), Pass, link);
        return;
      }
      ghost var p1 := handler.Here();
      ghost var calls0 := if scope.Some? then old(scope.value.calls) else [];
      ghost var saved0 := if scope.Some? then old(scope.value.saved) else [];
      outcome := Fixed(grid, calls0, saved0, p0.events);
      Chain(p0, p1, handler.Here(), FixingScript(scope.Some?, pace), FixedScript(scope.Some?, pace), Pass, outcome, link);
      if scope.Some? && outcome == Pass {
        Thrice(old(scope.value.calls), Snap, Snap, Snap);
        Thrice(old(scope.value.saved), ImageFile(SnapshotPath(folder, "initial")), ImageFile(SnapshotPath(folder, "init_fixation")),
               ImageFile(SnapshotPath(folder, "fixed")));
      }
    }

    /** `init_fixation` between the initial and intermediate snapshots. */
    method Fixing(ghost grid: seq<Point>) returns (outcome: Outcome)
      modifies handler`valve, handler`pump, handler`routing, handler`written, handler`replies, handler.log, Scopes()
      ensures Went(old(handler.Here()), handler.Here(), FixingScript(scope.Some?, pace), Pass, outcome, Handled(handler.handshakes))
      ensures outcome.Fail? ==> DeviceFault(outcome.error)
      ensures outcome == Pass && scope.Some? ==>
        && scope.value.calls == old(scope.value.calls) + [Snap, Snap]
        && scope.value.saved == old(scope.value.saved) + [ImageFile(SnapshotPath(folder, "initial")), ImageFile(SnapshotPath(folder, "init_fixation"))]
      ensures scope.Some? ==>
        Pictured(old(scope.value.calls), old(scope.value.saved), scope.value.calls, scope.value.saved,
                 handler.log.events[|old(handler.log.events)|..], grid, channels, scope.value.defined, folder)
    {
      ghost var p0, link := handler.Here(), Handled(handler.handshakes);
      Shoot("initial");
      ghost var p1 := handler.Here();
      if scope.Some? {
        PicturedShot(old(scope.value.calls), old(scope.value.saved), p0.events, "initial", folder, grid, channels, scope.value.defined);
      }
      outcome := InitFixation();
      Chain(p0, p1, handler.Here(), Shot(scope.Some?, "initial"), InitFixationScript(pace), Pass, outcome, link);
      if scope.Some? {
        LoadPerformable("PFA(half-MeAc)", pace);
        PicturedQuiet(scope.value.calls, scope.value.saved, p1.events, handler.log.events, InitFixationScript(pace),
                      grid, channels, scope.value.defined, folder);
        PicturedThen(old(scope.value.calls), old(scope.value.saved), scope.value.calls, scope.value.saved, scope.value.calls, scope.value.saved,
                     p0.events, p1.events, handler.log.events, grid, channels, scope.value.defined, folder);
      }
      if outcome.Fail? {
        Extend(p0, handler.Here(), Shot(scope.Some?, "initial") + InitFixationScript(pace), Pass, outcome,
               FixingScript(scope.Some?, pace), Pass, link);
        return;
      }
      p1 := handler.Here();
      ghost var calls1 := if scope.Some? then scope.value.calls else [];
      ghost var saved1 := if scope.Some? then scope.value.saved else [];
      Shoot("init_fixation");
      if scope.Some? {
        PicturedShot(calls1, saved1, p1.events, "init_fixation", folder, grid, channels, scope.value.defined);
        PicturedThen(old(scope.value.calls), old(scope.value.saved), calls1, saved1, scope.value.calls, scope.value.saved,
                     p0.events, p1.events, handler.log.events, grid, channels, scope.value.defined, folder);
      }
      Chain(p0, p1, handler.Here(), Shot(scope.Some?, "initial") + InitFixationScript(pace), Shot(scope.Some?, "init_fixation"),
            Pass, Pass, link);
      if scope.Some? {
        Twice(old(scope.value.calls), Snap, Snap);
        Twice(old(scope.value.saved), ImageFile(SnapshotPath(folder, "initial")), ImageFile(SnapshotPath(folder, "init_fixation")));
      }
    }

    /** `continue_fixation`, then the final snapshot. */
    method Fixed(ghost grid: seq<Point>, ghost calls0: seq<Action>, ghost saved0: seq<Saved>, ghost e0: seq<Event>)
      returns (outcome: Outcome)
      requires e0 <= handler.log.events
      requires scope.Some? ==>
        Pictured(calls0, saved0, scope.value.calls, scope.value.saved, handler.log.events[|e0|..], grid, channels, scope.value.defined, folder)
      modifies handler`valve, handler`pump, handler`routing, handler`written, handler`replies, handler.log, Scopes()
      ensures Went(old(handler.Here()), handler.Here(), FixedScript(scope.Some?, pace), Pass, outcome, Handled(handler.handshakes))
      ensures outcome.Fail? ==> DeviceFault(outcome.error)
      ensures outcome == Pass && scope.Some? ==>
        && scope.value.calls == old(scope.value.calls) + [Snap]
        && scope.value.saved == old(scope.value.saved) + [ImageFile(SnapshotPath(folder, "fixed"))]
      ensures e0 <= handler.log.events
      ensures scope.Some? ==>
        Pictured(calls0, saved0, scope.value.calls, scope.value.saved, handler.log.events[|e0|..], grid, channels, scope.value.defined, folder)
    {
      ghost var p0, link := handler.Here(), Handled(handler.handshakes);
      outcome := ContinueFixation();
      if scope.Some? {
        ContinuePerformable(pace);
        PicturedAfter(calls0, saved0, scope.value.calls, scope.value.saved, e0, p0.events, handler.log.events,
                      ContinueFixationScript(pace), grid, channels, scope.value.defined, folder);
      }
      if outcome.Fail? {
        Extend(p0, handler.Here(), ContinueFixationScript(pace), Pass, outcome, FixedScript(scope.Some?, pace), Pass, link);
        return;
      }
      ghost var p1 := handler.Here();
      Shoot("fixed");
      Chain(p0, p1, handler.Here(), ContinueFixationScript(pace), Shot(scope.Some?, "fixed"), Pass, Pass, link);
      if scope.Some? {
        PicturedShot(old(scope.value.calls), old(scope.value.saved), p1.events, "fixed", folder, grid, channels, scope.value.defined);
        PicturedThen(calls0, saved0, old(scope.value.calls), old(scope.value.saved),
                     scope.value.calls, scope.value.saved, e0, p1.events, handler.log.events, grid, channels, scope.value.defined, folder);
      }
    }

    /** `run(grid_coords, num_cycles)`: the fixation unless skipped, the
        cycles 1 to `n` (cycle 1 without the cleave), each followed by its
        acquisition when there is a microscope, then SSC at the slow speed.
        The history of the run is its script up to the first failure, and
        a device error is the error of the call that failed. */
    method Run(grid: seq<Point>, n: int) returns (outcome: Outcome)
      modifies handler`valve, handler`pump, handler`routing, handler`written, handler`replies, handler.log, Scopes()
      ensures Went(old(handler.Here()), handler.Here(), RunScript(n, includeWash, skipFixation, scope.Some?, pace), RunEnding(n, includeWash), outcome, Handled(handler.handshakes))
      ensures outcome.Fail? ==>
        || DeviceFault(outcome.error)
        || (includeWash && n >= 1 && outcome.error == MissingWaitFor)
        || (scope.Some? && outcome == AcquisitionOutcome(grid, channels, scope.value.defined))
        || (scope.Some? && !skipFixation && grid == [] && outcome == Fail(MissingFirstPoint))
      ensures scope.Some? && !skipFixation && grid == [] ==>
        outcome == Fail(MissingFirstPoint) && handler.Here() == old(handler.Here())
      ensures outcome == Pass && scope.Some? ==>
        && (n >= 1 ==> AcquisitionOutcome(grid, channels, scope.value.defined) == Pass)
        && scope.value.calls == old(scope.value.calls) + SnapCalls(skipFixation, grid) + Surveys(grid, channels, n)
        && scope.value.saved == old(scope.value.saved) + SnapFiles(folder, skipFixation) + Archive(folder, grid, channels, n)
      ensures outcome.Fail? && !DeviceFault(outcome.error) && outcome.error != MissingWaitFor &&
              !(scope.Some? && !skipFixation && grid == []) ==>
        && scope.Some? && n >= 1
        && handler.log.events == old(handler.log.events) + Prelude(skipFixation, true, pace) + Round(1, true, pace)
        && scope.value.calls == old(scope.value.calls) + FirstMove(skipFixation, grid) + (if skipFixation then [] else [Snap, Snap, Snap])
                                + AcquiredCalls(grid, channels, scope.value.defined)
        && scope.value.saved == old(scope.value.saved) + SnapFiles(folder, skipFixation)
      ensures scope.Some? ==>
        Pictured(old(scope.value.calls) + FirstMove(skipFixation, grid), old(scope.value.saved), scope.value.calls, scope.value.saved,
                 handler.log.events[|old(handler.log.events)|..], grid, channels, scope.value.defined, folder)
    {
      ghost var p0, link := handler.Here(), Handled(handler.handshakes);
      ghost var prelude := Prelude(skipFixation, scope.Some?, pace);
      ghost var whole := RunScript(n, includeWash, skipFixation, scope.Some?, pace);
      outcome := Fixation(grid);
      if outcome.Fail? {
        RunStages(n, includeWash, skipFixation, scope.Some?, pace);
        Extend(p0, handler.Here(), prelude, Pass, outcome, whole, RunEnding(n, includeWash), link);
        return;
      }
      ghost var p1 := handler.Here();
      ghost var calls1 := if scope.Some? then scope.value.calls else [];
      ghost var saved1 := if scope.Some? then scope.value.saved else [];
      outcome := Cycling(grid, n, p0, prelude, whole);
      if scope.Some? {
        RunRecords(old(scope.value.calls) + FirstMove(skipFixation, grid), old(scope.value.saved), calls1, saved1,
                   scope.value.calls, scope.value.saved, p0.events, p1.events, handler.log.events,
                   outcome.Fail? && !DeviceFault(outcome.error) && outcome.error != MissingWaitFor,
                   skipFixation, pace, grid, channels, scope.value.defined, folder);
      }
    }

    /** The part of `run` after the fixation `prelude` of the run `whole`:
        the cycle loop, then SSC at the slow speed. */
    method Cycling(grid: seq<Point>, n: int, ghost p0: Moment, ghost prelude: seq<Event>, ghost whole: seq<Event>)
      returns (outcome: Outcome)
      requires Went(p0, handler.Here(), prelude, Pass, Pass, Handled(handler.handshakes))
      requires whole == if includeWash && n >= 1 then prelude + CycleScript(1, true, true, pace)
                        else prelude + Cycles(n, scope.Some?, pace) + Finale(pace)
      modifies handler`valve, handler`pump, handler`routing, handler`written, handler`replies, handler.log, Scopes()
      ensures Went(p0, handler.Here(), whole, RunEnding(n, includeWash), outcome, Handled(handler.handshakes))
      ensures outcome.Fail? ==>
        || DeviceFault(outcome.error)
        || (includeWash && n >= 1 && outcome.error == MissingWaitFor)
        || (scope.Some? && outcome == AcquisitionOutcome(grid, channels, scope.value.defined))
      ensures outcome == Pass && scope.Some? ==>
        && (n >= 1 ==> AcquisitionOutcome(grid, channels, scope.value.defined) == Pass)
        && scope.value.calls == old(scope.value.calls) + Surveys(grid, channels, n)
        && scope.value.saved == old(scope.value.saved) + Archive(folder, grid, channels, n)
      ensures outcome.Fail? && !DeviceFault(outcome.error) && outcome.error != MissingWaitFor ==>
        scope.Some? && n >= 1 && handler.log.events == p0.events + prelude + Round(1, true, pace)
      ensures scope.Some? ==>
        Recorded(old(scope.value.calls), old(scope.value.saved), scope.value.calls, scope.value.saved,
                 old(handler.log.events), handler.log.events, grid, channels, scope.value.defined, folder)
    {
      ghost var stages := Staging(prelude, n, scope.Some?, pace);
      outcome := Rounds(grid, n, p0, stages, whole);
      if outcome.Fail? {
        if scope.Some? && n >= 1 {
          assert stages[1] == stages[0] + Round(1, scope.Some?, pace);
          Associate(p0.events, prelude, Round(1, true, pace));
        }
        return;
      }
      ghost var p1 := handler.Here();
      FinalePerformable(pace);
      outcome := handler.Perform(Finale(pace));
      Chain(p0, p1, handler.Here(), stages[|stages| - 1], Finale(pace), Pass, outcome, Handled(handler.handshakes));
      if scope.Some? {
        PicturedAfter(old(scope.value.calls), old(scope.value.saved), scope.value.calls, scope.value.saved,
                      old(handler.log.events), p1.events, handler.log.events, Finale(pace), grid, channels, scope.value.defined, folder);
      }
    }

    /** The cycle loop of `run`, given the stages of the run `whole`:
        cycles 1 to `n`, each followed by its acquisition when there is a
        microscope, until one fails. */
    method Rounds(grid: seq<Point>, n: int, ghost p0: Moment, ghost stages: seq<seq<Event>>, ghost whole: seq<Event>)
      returns (outcome: Outcome)
      requires |stages| == (if n < 1 then 0 else n) + 1
      requires Went(p0, handler.Here(), stages[0], Pass, Pass, Handled(handler.handshakes))
      requires forall k {:trigger Round(k, scope.Some?, pace)} :: 1 <= k < |stages| ==>
        stages[k] == stages[k - 1] + Round(k, scope.Some?, pace)
      requires includeWash && n >= 1 ==> whole == stages[0] + CycleScript(1, true, true, pace)
      requires !(includeWash && n >= 1) ==> forall k {:trigger stages[k]} :: 0 <= k < |stages| ==> stages[k] <= whole
      modifies handler`valve, handler`pump, handler`routing, handler`written, handler`replies, handler.log, Scopes()
      ensures outcome == Pass ==>
        && !(includeWash && n >= 1)
        && Went(p0, handler.Here(), stages[|stages| - 1], Pass, Pass, Handled(handler.handshakes))
        && (scope.Some? ==>
          && (n >= 1 ==> AcquisitionOutcome(grid, channels, scope.value.defined) == Pass)
          && scope.value.calls == old(scope.value.calls) + Surveys(grid, channels, n)
          && scope.value.saved == old(scope.value.saved) + Archive(folder, grid, channels, n))
      ensures outcome.Fail? ==>
        && Went(p0, handler.Here(), whole, RunEnding(n, includeWash), outcome, Handled(handler.handshakes))
        && (|| DeviceFault(outcome.error)
            || (includeWash && n >= 1 && outcome.error == MissingWaitFor)
            || (scope.Some? && outcome == AcquisitionOutcome(grid, channels, scope.value.defined)))
      ensures outcome.Fail? && !DeviceFault(outcome.error) && outcome.error != MissingWaitFor ==>
        scope.Some? && n >= 1 && handler.log.events == p0.events + stages[1]
      ensures scope.Some? ==>
        Recorded(old(scope.value.calls), old(scope.value.saved), scope.value.calls, scope.value.saved,
                 old(handler.log.events), handler.log.events, grid, channels, scope.value.defined, folder)
    {
      ghost var calls0 := if scope.Some? then scope.value.calls else [];
      ghost var saved0 := if scope.Some? then scope.value.saved else [];
      ghost var e0 := handler.log.events;
      assert e0[|e0|..] == [];
      outcome := Pass;
      var c := 1;
      ghost var done: nat := 0;
      while c <= n
        invariant 1 <= c <= |stages| && done == c - 1
        invariant includeWash ==> c == 1
        invariant outcome == Pass
        invariant Went(p0, handler.Here(), stages[c - 1], Pass, Pass, Handled(handler.handshakes))
        invariant scope.Some? ==>
          && scope.value.calls == calls0 + Surveys(grid, channels, done)
          && scope.value.saved == saved0 + Archive(folder, grid, channels, done)
        invariant scope.Some? && c > 1 ==> AcquisitionOutcome(grid, channels, scope.value.defined) == Pass
        invariant scope.Some? ==>
          Recorded(calls0, saved0, scope.value.calls, scope.value.saved, e0, handler.log.events, grid, channels, scope.value.defined, folder)
        decreases n - c
      {
        assert stages[c] == stages[c - 1] + Round(c, scope.Some?, pace);
        if includeWash {
          assert stages[c - 1] == stages[0];
        } else {
          assert stages[c] <= whole;
        }
        outcome := Cycle(grid, c, p0, stages[c - 1], stages[c], whole, RunEnding(n, includeWash), calls0, saved0, e0);
        if outcome.Fail? {
          return;
        }
        ghost var reached := stages[c];
        done := c;
        c := c + 1;
        assert stages[c - 1] == reached;
      }
      assert done == |stages| - 1;
      if n < 1 {
        assert Surveys(grid, channels, n) == Surveys(grid, channels, done);
        assert Archive(folder, grid, channels, n) == Archive(folder, grid, channels, done);
      } else {
        assert done == n;
      }
    }

    /** One pass of the cycle loop of `run`, given the run so far `done`,
        the run `next` once this pass is over, and the whole run `whole`:
        cycle `c` (without the cleave when it is the first), then its
        acquisition when there is a microscope. A failure ends the whole
        run; `calls0` and `saved0` are the microscope's records before
        the first cycle. */
    method Cycle(grid: seq<Point>, c: int, ghost p0: Moment, ghost done: seq<Event>,
                 ghost next: seq<Event>, ghost whole: seq<Event>, ghost ending: Outcome,
                 ghost calls0: seq<Action>, ghost saved0: seq<Saved>, ghost e0: seq<Event>)
      returns (outcome: Outcome)
      requires 1 <= c && next == done + Round(c, scope.Some?, pace)
      requires scope.Some? ==>
        Recorded(calls0, saved0, scope.value.calls, scope.value.saved, e0, handler.log.events, grid, channels, scope.value.defined, folder)
      requires Went(p0, handler.Here(), done, Pass, Pass, Handled(handler.handshakes))
      requires scope.Some? ==>
        && scope.value.calls == calls0 + Surveys(grid, channels, c - 1)
        && scope.value.saved == saved0 + Archive(folder, grid, channels, c - 1)
      requires includeWash ==> c == 1 && ending == Fail(MissingWaitFor) && whole == done + CycleScript(1, true, true, pace)
      requires !includeWash ==> ending == Pass && next <= whole
      modifies handler`valve, handler`pump, handler`routing, handler`written, handler`replies, handler.log, Scopes()
      ensures outcome == Pass ==>
        && !includeWash
        && Went(p0, handler.Here(), next, Pass, Pass, Handled(handler.handshakes))
        && (scope.Some? ==>
          && AcquisitionOutcome(grid, channels, scope.value.defined) == Pass
          && scope.value.calls == calls0 + Surveys(grid, channels, c)
          && scope.value.saved == saved0 + Archive(folder, grid, channels, c))
      ensures outcome.Fail? ==>
        && Went(p0, handler.Here(), whole, ending, outcome, Handled(handler.handshakes))
        && (|| DeviceFault(outcome.error)
            || (includeWash && outcome.error == MissingWaitFor)
            || (scope.Some? && outcome == AcquisitionOutcome(grid, channels, scope.value.defined)))
      ensures outcome.Fail? && !DeviceFault(outcome.error) && outcome.error != MissingWaitFor ==>
        scope.Some? && handler.log.events == p0.events + next
      ensures scope.Some? ==>
        Recorded(calls0, saved0, scope.value.calls, scope.value.saved, e0, handler.log.events, grid, channels, scope.value.defined, folder)
    {
      ghost var link := Handled(handler.handshakes);
      ghost var p1 := handler.Here();
      outcome := PerformCycle(c, c == 1);
      Chain(p0, p1, handler.Here(), done, CycleScript(c, c == 1, includeWash, pace), CycleEnding(includeWash), outcome, link);
      if scope.Some? {
        CyclePerformable(c, c == 1, includeWash, pace);
        PicturedAfter(calls0, saved0, scope.value.calls, scope.value.saved, e0, p1.events, handler.log.events,
                      CycleScript(c, c == 1, includeWash, pace), grid, channels, scope.value.defined, folder);
      }
      if includeWash {
        return;
      }
      ghost var cycled := done + CycleScript(c, c == 1, false, pace);
      ghost var acquired := if scope.Some? then [Acquire(c)] else [];
      Associate(done, CycleScript(c, c == 1, false, pace), acquired);
      Shorter(cycled, acquired, whole);
      if outcome.Fail? {
        Extend(p0, handler.Here(), cycled, Pass, outcome, whole, Pass, link);
        return;
      }
      if scope.Some? {
        outcome := Acquisition(grid, c, p0, cycled, whole, calls0, saved0, e0);
      } else {
        assert cycled + acquired == cycled;
      }
    }

    /** The acquisition that ends a cycle of `run`, after the part `done`
        of the run `whole`. */
    method Acquisition(grid: seq<Point>, c: int, ghost p0: Moment, ghost done: seq<Event>,
                       ghost whole: seq<Event>, ghost calls0: seq<Action>, ghost saved0: seq<Saved>, ghost e0: seq<Event>)
      returns (outcome: Outcome)
      requires scope.Some? && 1 <= c
      requires Recorded(calls0, saved0, scope.value.calls, scope.value.saved, e0, handler.log.events, grid, channels, scope.value.defined, folder)
      requires scope.value.calls == calls0 + Surveys(grid, channels, c - 1)
      requires scope.value.saved == saved0 + Archive(folder, grid, channels, c - 1)
      requires Went(p0, handler.Here(), done, Pass, Pass, Handled(handler.handshakes))
      requires done + [Acquire(c)] <= whole
      modifies handler.log, Scopes()
      ensures outcome == AcquisitionOutcome(grid, channels, scope.value.defined)
      ensures outcome == Pass ==>
        && Went(p0, handler.Here(), done + [Acquire(c)], Pass, Pass, Handled(handler.handshakes))
        && scope.value.calls == calls0 + Surveys(grid, channels, c)
        && scope.value.saved == saved0 + Archive(folder, grid, channels, c)
      ensures outcome.Fail? ==> Went(p0, handler.Here(), whole, Pass, outcome, Handled(handler.handshakes))
      ensures handler.log.events == old(handler.log.events) + [Acquire(c)] == p0.events + (done + [Acquire(c)])
      ensures Recorded(calls0, saved0, scope.value.calls, scope.value.saved, e0, handler.log.events, grid, channels, scope.value.defined, folder)
    {
      ghost var link := Handled(handler.handshakes);
      ghost var p1 := handler.Here();
      ghost var calls1, saved1 := scope.value.calls, scope.value.saved;
      Arrived(p0, p1, done, link);
      Associate(p0.events, done, [Acquire(c)]);
      outcome := Survey(grid, c);
      Chain(p0, p1, handler.Here(), done, [Acquire(c)], Pass, Pass, link);
      PicturedThen(calls0, saved0, calls1, saved1, scope.value.calls, scope.value.saved,
                   e0, p1.events, handler.log.events, grid, channels, scope.value.defined, folder);
      if outcome.Fail? {
        Halted(p0, handler.Here(), done + [Acquire(c)], whole, Pass, outcome, link);
      } else {
        Associate(calls0, Surveys(grid, channels, c - 1), SurveyCalls(grid, channels));
        Associate(saved0, Archive(folder, grid, channels, c - 1), Files(folder, Captures(grid, channels), c));
      }
    }
  }
}
