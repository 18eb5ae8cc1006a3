/** The line protocol between the handler and the fluidics device, as pure
    definitions: the command frame that sets the device state, the canonical
    status string the device must echo back, the bounded handshake that
    compares the two, and the heartbeat used to find the device. The serial
    link is abstracted: lines written are strings without their '\n', and the
    device's answers are a sequence of replies, an exhausted sequence standing
    for a read that times out and returns nothing. */
module Protocol {
  import opened Text
  import opened Outcomes
  import Routing

  /** The handler's local copy of the three device fields. */
  datatype Mirror = Mirror(valve: int, pump: int, routing: seq<int>)

  /** stage_valve_state_dict: the valve positions the handler can name. */
  const ValveNames: map<int, string> := map[0 := "Stage", 1 := "Waste"]

  /** The line asking the device to report its state. */
  const StatusQuery := "0"

  /** The heartbeat line. */
  const Ping := "5"

  // ---------------------------------------------------------------------
  // Command frame
  // ---------------------------------------------------------------------

  function ValveLine(valve: int): string {
    "4" + IntToString(valve)
  }

  /** The pump value, zero-padded to four characters. */
  function PumpLine(pump: int): string {
    "3" + ZeroPad(IntToString(pump), 4)
  }

  /** One routing slot: its index, then its value zero-padded to two
      characters. */
  function SlotLine(slot: nat, value: int): string {
    "2" + IntToString(slot) + ZeroPad(IntToString(value), 2)
  }

  /** A line for every non-zero slot from `from` on, in ascending slot order. */
  function RoutingLines(routing: seq<int>, from: nat): seq<string>
    decreases |routing| - from
  {
    if from >= |routing| then []
    else (if routing[from] != 0 then [SlotLine(from, routing[from])] else []) + RoutingLines(routing, from + 1)
  }

  /** The command frame for a target state: an empty line, the valve line,
      the pump line, then the routing lines. */
  function Frame(m: Mirror): seq<string> {
    ["", ValveLine(m.valve), PumpLine(m.pump)] + RoutingLines(m.routing, 0)
  }

  /** What one handshake round writes: the whole frame, then the status
      query. */
  function RoundLines(m: Mirror): seq<string> {
    Frame(m) + [StatusQuery]
  }

  function NonZeroCount(routing: seq<int>, from: nat): nat
    decreases |routing| - from
  {
    if from >= |routing| then 0 else (if routing[from] != 0 then 1 else 0) + NonZeroCount(routing, from + 1)
  }

  /** The frame has three fixed lines and one line per non-zero slot, each
      line naming its slot; an all-zero routing vector gives exactly the
      three fixed lines. */
  lemma {:induction false} RoutingLinesCount(routing: seq<int>, from: nat)
    ensures |RoutingLines(routing, from)| == NonZeroCount(routing, from)
    ensures (forall k :: from <= k < |routing| ==> routing[k] == 0) ==> RoutingLines(routing, from) == []
    decreases |routing| - from
  {
    if from < |routing| {
      RoutingLinesCount(routing, from + 1);
    }
  }

  lemma FrameLength(m: Mirror)
    ensures |Frame(m)| == 3 + NonZeroCount(m.routing, 0)
    ensures (forall k :: 0 <= k < |m.routing| ==> m.routing[k] == 0) ==> |Frame(m)| == 3
  {
    RoutingLinesCount(m.routing, 0);
  }

  /** The four characters after the pump tag read back as the pump value,
      for every value from 0 to 9999. */
  lemma PumpFieldRoundTrip(pump: int)
    requires 0 <= pump <= 9999
    ensures |PumpLine(pump)| == 5 && PumpLine(pump)[0] == '3'
    ensures AllDigits(PumpLine(pump)[1..]) && ParseDigits(PumpLine(pump)[1..]) == pump
  {
    assert Pow10(4) == 10000;
    PaddedRoundTrip(pump, 4);
    assert PumpLine(pump)[1..] == ZeroPad(NatToString(pump), 4);
  }

  /** The two characters after the slot tag and index read back as the slot
      value, for every value from 1 to 99. */
  lemma SlotFieldRoundTrip(slot: nat, value: int)
    requires slot < 10 && 1 <= value <= 99
    ensures |SlotLine(slot, value)| == 4 && SlotLine(slot, value)[0] == '2'
    ensures SlotLine(slot, value)[1] == DigitChar(slot)
    ensures AllDigits(SlotLine(slot, value)[2..]) && ParseDigits(SlotLine(slot, value)[2..]) == value
  {
    assert Pow10(2) == 100;
    PaddedRoundTrip(value, 2);
    assert IntToString(slot) == [DigitChar(slot)];
    assert SlotLine(slot, value)[2..] == ZeroPad(NatToString(value), 2);
  }

  // ---------------------------------------------------------------------
  // Decoding a frame (what the device firmware does with it)
  // ---------------------------------------------------------------------

  function DecodeNumber(s: string): Option<nat> {
    if |s| >= 1 && AllDigits(s) then Some(ParseDigits(s)) else None
  }

  function DecodeSlot(line: string): Option<(nat, nat)> {
    if |line| >= 3 && line[0] == '2' && IsDigit(line[1]) && AllDigits(line[2..])
    then Some((DigitValue(line[1]), ParseDigits(line[2..])))
    else None
  }

  function ApplySlots(lines: seq<string>, routing: seq<int>): Option<seq<int>>
    decreases |lines|
  {
    if lines == [] then Some(routing)
    else match DecodeSlot(lines[0])
      case None => None
      case Some(sv) => if sv.0 < |routing| then ApplySlots(lines[1..], routing[sv.0 := sv.1]) else None
  }

  function ZeroVector(n: nat): (v: seq<int>)
    ensures |v| == n && forall k :: 0 <= k < n ==> v[k] == 0
  {
    seq(n, _ => 0)
  }

  /** The device state a frame commands, starting from an all-zero routing
      vector of 5 slots. */
  function DecodeFrame(lines: seq<string>): Option<Mirror> {
    if |lines| < 3 || lines[0] != "" || |lines[1]| < 1 || lines[1][0] != '4' || |lines[2]| < 1 || lines[2][0] != '3'
    then None
    else match (DecodeNumber(lines[1][1..]), DecodeNumber(lines[2][1..]))
      case (Some(valve), Some(pump)) =>
        (match ApplySlots(lines[3..], ZeroVector(Routing.Slots))
          case Some(routing) => Some(Mirror(valve, pump, routing))
          case None => None)
      case _ => None
  }

  /** A state whose fields fit the frame's fixed-width fields. */
  predicate Encodable(m: Mirror) {
    && 0 <= m.valve <= 9
    && 0 <= m.pump <= 9999
    && |m.routing| == Routing.Slots
    && forall k :: 0 <= k < |m.routing| ==> 0 <= m.routing[k] <= 99
  }

  lemma {:induction false} ApplyRoutingLines(routing: seq<int>, from: nat)
    requires from <= |routing| <= 10
    requires forall k :: 0 <= k < |routing| ==> 0 <= routing[k] <= 99
    ensures ApplySlots(RoutingLines(routing, from), Partial(routing, from)) == Some(routing)
    decreases |routing| - from
  {
    if from == |routing| {
      assert Partial(routing, from) == routing;
    } else {
      ApplyRoutingLines(routing, from + 1);
      PartialStep(routing, from);
      var rest := RoutingLines(routing, from + 1);
      if routing[from] == 0 {
        assert RoutingLines(routing, from) == rest;
      } else {
        var line := SlotLine(from, routing[from]);
        assert RoutingLines(routing, from) == [line] + rest;
        SlotFieldRoundTrip(from, routing[from]);
        assert DecodeSlot(line) == Some((from, routing[from]));
        assert ([line] + rest)[1..] == rest;
      }
    }
  }

  /** The routing vector with its slots before `from` set and the rest zero. */
  function Partial(routing: seq<int>, from: nat): seq<int>
    requires from <= |routing|
  {
    routing[..from] + ZeroVector(|routing| - from)
  }

  lemma PartialStep(routing: seq<int>, from: nat)
    requires from < |routing|
    ensures Partial(routing, from)[from := routing[from]] == Partial(routing, from + 1)
    ensures routing[from] == 0 ==> Partial(routing, from) == Partial(routing, from + 1)
  {
    var a := Partial(routing, from);
    var b := Partial(routing, from + 1);
    assert a[from := routing[from]] == b by {
      forall k | 0 <= k < |b| ensures a[from := routing[from]][k] == b[k] {
        if k < from { assert a[k] == routing[k] && b[k] == routing[k]; }
        else if k > from { assert a[k] == 0 && b[k] == 0; }
      }
    }
    if routing[from] == 0 {
      assert a[from] == 0;
      assert a[from := 0] == a;
    }
  }

  /** Decoding a frame recovers the state it was encoded from: the frame
      carries the whole state, and nothing but it. */
  lemma FrameRoundTrip(m: Mirror)
    requires Encodable(m)
    ensures DecodeFrame(Frame(m)) == Some(m)
  {
    var lines := Frame(m);
    assert lines[3..] == RoutingLines(m.routing, 0);
    assert IntToString(m.valve) == [DigitChar(m.valve)];
    assert lines[1][1..] == IntToString(m.valve);
    ParseNatToString(m.valve);
    PumpFieldRoundTrip(m.pump);
    ApplyRoutingLines(m.routing, 0);
    assert Partial(m.routing, 0) == ZeroVector(Routing.Slots);
  }

  // ---------------------------------------------------------------------
  // The canonical status string
  // ---------------------------------------------------------------------

  function Decimals(xs: seq<int>): (ds: seq<string>)
    ensures |ds| == |xs|
    ensures forall i :: 0 <= i < |xs| ==> ds[i] == IntToString(xs[i])
  {
    seq(|xs|, i requires 0 <= i < |xs| => IntToString(xs[i]))
  }

  /** "[r0,r1,...];valve;pump" in plain decimal: what a device in state m
      reports. */
  function CheckString(m: Mirror): string {
    "[" + Join(Decimals(m.routing), ",") + "];" + IntToString(m.valve) + ";" + IntToString(m.pump)
  }

  /** The status string of the state the scheduler leaves the device in
      after loading PFA at pump rate 2000. */
  lemma CheckStringExample()
    ensures CheckString(Mirror(0, 2000, [0, 1, 1, 9, 0])) == "[0,1,1,9,0];0;2000"
  {
    var m := Mirror(0, 2000, [0, 1, 1, 9, 0]);
    DecimalsExample();
    ThousandsExample();
    assert CheckString(m) == "[" + "0,1,1,9,0" + "];" + "0" + ";" + "2000";
    assert "[" + "0,1,1,9,0" == "[0,1,1,9,0";
    assert "[0,1,1,9,0" + "];" == "[0,1,1,9,0];";
    assert "[0,1,1,9,0];" + "0" == "[0,1,1,9,0];0";
    assert "[0,1,1,9,0];0" + ";" == "[0,1,1,9,0];0;";
  }

  lemma DecimalsExample()
    ensures Join(Decimals([0, 1, 1, 9, 0]), ",") == "0,1,1,9,0"
  {
    DigitsExample();
    JoinExample();
  }

  lemma DigitsExample()
    ensures Decimals([0, 1, 1, 9, 0]) == ["0", "1", "1", "9", "0"]
  {
    assert IntToString(0) == "0" && IntToString(1) == "1" && IntToString(9) == "9";
  }

  lemma JoinExample()
    ensures Join(["0", "1", "1", "9", "0"], ",") == "0,1,1,9,0"
  {
    var ds := ["0", "1", "1", "9", "0"];
    assert Join(ds[4..], ",") == "0";
    assert Join(ds[3..], ",") == "9,0";
    assert Join(ds[2..], ",") == "1,9,0";
    assert Join(ds[1..], ",") == "1,1,9,0";
  }

  lemma ThousandsExample()
    ensures IntToString(2000) == "2000" && IntToString(0) == "0"
  {
    assert NatToString(2) == "2";
    assert NatToString(20) == "20";
    assert NatToString(200) == "200";
  }

  /** The status string has no surrounding whitespace, so trimming leaves it
      as it is. */
  lemma CheckStringTrimmed(m: Mirror)
    ensures Trimmed(CheckString(m))
    ensures Strip(CheckString(m)) == CheckString(m)
  {
    var s := CheckString(m);
    var p := IntToString(m.pump);
    assert s[0] == '[';
    assert s[|s| - 1] == p[|p| - 1];
    assert IsDigit(p[|p| - 1]) by {
      if m.pump < 0 {
        assert p[|p| - 1] == NatToString(-m.pump)[|NatToString(-m.pump)| - 1];
      }
    }
    StripPadded([], s, []);
    assert [] + s + [] == s;
  }

  /** Reads a non-negative decimal field back. */
  function ParseFields(items: seq<string>): Option<seq<int>>
    decreases |items|
  {
    if items == [] then Some([])
    else match (DecodeNumber(items[0]), ParseFields(items[1..]))
      case (Some(x), Some(xs)) => Some([x] + xs)
      case _ => None
  }

  /** The state a status string reports, when it has the canonical shape. */
  function ParseCheckString(s: string): Option<Mirror> {
    var parts := Split(s, ';');
    if |parts| != 3 || |parts[0]| < 2 || parts[0][0] != '[' || parts[0][|parts[0]| - 1] != ']' then None
    else match (ParseFields(Split(parts[0][1..|parts[0]| - 1], ',')), DecodeNumber(parts[1]), DecodeNumber(parts[2]))
      case (Some(routing), Some(valve), Some(pump)) => Some(Mirror(valve, pump, routing))
      case _ => None
  }

  /** A state with no negative field and at least one routing slot. */
  predicate Reportable(m: Mirror) {
    && m.valve >= 0 && m.pump >= 0 && |m.routing| >= 1
    && forall k :: 0 <= k < |m.routing| ==> m.routing[k] >= 0
  }

  lemma {:induction false} ParseDecimals(xs: seq<int>)
    requires forall k :: 0 <= k < |xs| ==> xs[k] >= 0
    ensures ParseFields(Decimals(xs)) == Some(xs)
    decreases |xs|
  {
    if xs != [] {
      var ds := Decimals(xs);
      assert ds[1..] == Decimals(xs[1..]);
      ParseDecimals(xs[1..]);
      ParseNatToString(xs[0]);
      assert ds[0] == NatToString(xs[0]);
      assert DecodeNumber(ds[0]) == Some(xs[0]);
      assert ParseFields(ds) == Some([xs[0]] + xs[1..]);
      assert [xs[0]] + xs[1..] == xs;
    }
  }

  /** A string of digits contains no other character. */
  lemma DigitsExclude(d: string, c: char)
    requires AllDigits(d) && !IsDigit(c)
    ensures c !in d
  {
    forall j | 0 <= j < |d| ensures d[j] != c {
      assert IsDigit(d[j]);
    }
  }

  lemma DecimalsHaveNo(xs: seq<int>, c: char)
    requires forall k :: 0 <= k < |xs| ==> xs[k] >= 0
    requires !IsDigit(c)
    ensures forall i :: 0 <= i < |xs| ==> c !in Decimals(xs)[i]
  {
    forall i | 0 <= i < |xs| ensures c !in Decimals(xs)[i] {
      assert Decimals(xs)[i] == NatToString(xs[i]);
      DigitsExclude(Decimals(xs)[i], c);
    }
  }

  lemma {:induction false} JoinHasNo(parts: seq<string>, sep: string, c: char)
    requires c !in sep
    requires forall i :: 0 <= i < |parts| ==> c !in parts[i]
    ensures c !in Join(parts, sep)
    decreases |parts|
  {
    if |parts| > 1 {
      JoinHasNo(parts[1..], sep, c);
    }
  }

  /** The bracketed routing list at the head of the status string. */
  function RoutingList(routing: seq<int>): string {
    "[" + Join(Decimals(routing), ",") + "]"
  }

  lemma JoinThree(a: string, b: string, c: string, sep: char)
    ensures Join([a, b, c], [sep]) == a + [sep] + b + [sep] + c
  {
    assert [a, b, c][1..] == [b, c];
    assert [b, c][1..] == [c];
    assert Join([c], [sep]) == c;
    assert Join([b, c], [sep]) == b + [sep] + c;
    assert a + [sep] + (b + [sep] + c) == a + [sep] + b + [sep] + c;
  }

  /** The status string is its three fields joined by ';', none of which
      contains a ';'. */
  lemma CheckStringFields(m: Mirror)
    requires Reportable(m)
    ensures Split(CheckString(m), ';') == [RoutingList(m.routing), IntToString(m.valve), IntToString(m.pump)]
  {
    var ds := Decimals(m.routing);
    var head := RoutingList(m.routing);
    var v := IntToString(m.valve);
    var p := IntToString(m.pump);
    JoinThree(head, v, p, ';');
    assert CheckString(m) == head + [';'] + v + [';'] + p;
    DecimalsHaveNo(m.routing, ';');
    JoinHasNo(ds, ",", ';');
    assert ';' !in head;
    assert v == NatToString(m.valve) && p == NatToString(m.pump);
    DigitsExclude(v, ';');
    DigitsExclude(p, ';');
    SplitJoin([head, v, p], ';');
  }

  /** The routing list reads back as the routing vector. */
  lemma RoutingListRoundTrip(routing: seq<int>)
    requires |routing| >= 1 && forall k :: 0 <= k < |routing| ==> routing[k] >= 0
    ensures var head := RoutingList(routing);
      && |head| >= 2 && head[0] == '[' && head[|head| - 1] == ']'
      && ParseFields(Split(head[1..|head| - 1], ',')) == Some(routing)
  {
    var ds := Decimals(routing);
    var head := RoutingList(routing);
    assert head[1..|head| - 1] == Join(ds, ",");
    DecimalsHaveNo(routing, ',');
    SplitJoin(ds, ',');
    ParseDecimals(routing);
  }

  /** The status string of a state reads back as that state: the device
      report the handler compares against pins down all three fields. */
  lemma CheckStringRoundTrip(m: Mirror)
    requires Reportable(m)
    ensures ParseCheckString(CheckString(m)) == Some(m)
  {
    CheckStringFields(m);
    RoutingListRoundTrip(m.routing);
    ParseNatToString(m.valve);
    ParseNatToString(m.pump);
    assert DecodeNumber(IntToString(m.valve)) == Some(m.valve);
    assert DecodeNumber(IntToString(m.pump)) == Some(m.pump);
  }

  /** Two reportable states with the same status string are the same state. */
  lemma CheckStringInjective(a: Mirror, b: Mirror)
    requires Reportable(a) && Reportable(b)
    ensures CheckString(a) == CheckString(b) <==> a == b
  {
    CheckStringRoundTrip(a);
    CheckStringRoundTrip(b);
  }

  // ---------------------------------------------------------------------
  // Handshake
  // ---------------------------------------------------------------------

  /** A status reply confirms the target when, with its last byte dropped
      and whitespace trimmed from both ends, it equals the status string
      (which has no surrounding whitespace; see MatchesAsCompared). */
  predicate Matches(reply: string, m: Mirror) {
    Strip(DropLast(reply)) == CheckString(m)
  }

  /** Matches is the comparison the handler makes, which trims both sides. */
  lemma MatchesAsCompared(reply: string, m: Mirror)
    ensures Matches(reply, m) <==> Strip(DropLast(reply)) == Strip(CheckString(m))
  {
    CheckStringTrimmed(m);
  }

  /** A device that answers with its status line and a line terminator is
      confirmed, whatever whitespace it wraps the line in. */
  lemma EchoMatches(m: Mirror, before: string, after: string, terminator: char)
    requires AllSpace(before) && AllSpace(after)
    ensures Matches(before + CheckString(m) + after + [terminator], m)
  {
    var reply := before + CheckString(m) + after + [terminator];
    assert DropLast(reply) == before + CheckString(m) + after;
    CheckStringTrimmed(m);
    StripPadded(before, CheckString(m), after);
  }

  /** A read that times out returns nothing, and nothing never confirms a
      state: once the device has stopped answering, every later round
      mismatches. */
  lemma SilenceNeverMatches(m: Mirror)
    ensures !Matches("", m)
  {
    CheckStringTrimmed(m);
    assert |CheckString(m)| >= 1;
  }

  /** The verdict of every reply the device gives, in order. */
  function Verdicts(replies: seq<string>, m: Mirror): (v: seq<bool>)
    ensures |v| == |replies|
    decreases |replies|
  {
    if replies == [] then [] else [Matches(replies[0], m)] + Verdicts(replies[1..], m)
  }

  /** Round i's verdict is whether reply i confirms the target. */
  lemma {:induction false} VerdictAt(replies: seq<string>, m: Mirror, i: nat)
    requires i < |replies|
    ensures Verdicts(replies, m)[i] == Matches(replies[i], m)
    decreases |replies|
  {
    if i > 0 {
      VerdictAt(replies[1..], m, i - 1);
    }
  }

  /** Round i's verdict is whether the reply read on that round confirms the
      target; a round past the device's answers reads nothing. */
  lemma HitAt(replies: seq<string>, m: Mirror, i: nat)
    ensures Hit(Verdicts(replies, m), i) == Matches(if i < |replies| then replies[i] else "", m)
  {
    if i < |replies| {
      VerdictAt(replies, m, i);
    } else {
      SilenceNeverMatches(m);
    }
  }

  /** Whether round i confirms the target; a round past the device's answers
      reads nothing and does not. */
  function Hit(v: seq<bool>, i: nat): bool {
    i < |v| && v[i]
  }

  /** The replies left after n reads. */
  function Drop(replies: seq<string>, n: nat): seq<string> {
    if n <= |replies| then replies[n..] else []
  }

  /** Read n + 1 reads the reply numbered n, or nothing once the device has
      stopped answering, and leaves the replies after it. */
  lemma DropNext(replies: seq<string>, n: nat)
    ensures Drop(Drop(replies, n), 1) == Drop(replies, n + 1)
    ensures Drop(replies, n) == [] <==> n >= |replies|
    ensures n < |replies| ==> Drop(replies, n)[0] == replies[n]
  {
    if n + 1 <= |replies| {
      assert replies[n..][1..] == replies[n + 1..];
    }
  }

  /** After n reads, the next reply's verdict is round n's verdict. */
  lemma VerdictAfter(replies: seq<string>, m: Mirror, n: nat)
    ensures Hit(Verdicts(Drop(replies, n), m), 0) == Hit(Verdicts(replies, m), n)
  {
    DropNext(replies, n);
    HitAt(replies, m, n);
    HitAt(Drop(replies, n), m, 0);
  }

  /** The number of rounds the handshake runs when rounds 0..k-1 have already
      mismatched: the attempt counter is checked after every round, and the
      loop ends on the first match or when the counter reaches the budget. */
  function RoundsFrom(v: seq<bool>, budget: int, k: nat): nat
    decreases if budget > k then budget - k else 0
  {
    if Hit(v, k) || k + 1 >= budget then k + 1
    else RoundsFrom(v, budget, k + 1)
  }

  function Rounds(v: seq<bool>, budget: int): nat {
    RoundsFrom(v, budget, 0)
  }

  /** The handshake returns normally: the last round matched, and it was not
      the round that exhausted the budget. */
  predicate Acknowledged(v: seq<bool>, budget: int) {
    var n := Rounds(v, budget);
    n >= 1 && Hit(v, n - 1) && n < budget
  }

  /** The handshake after k rounds: while it goes on, the rounds still to
      run are those counted from round k, and the attempt counter is below
      the budget (or no round has run); once a match ended it, it ran k
      rounds and succeeded. */
  predicate Midway(v: seq<bool>, budget: int, k: nat, going: bool) {
    && (k == 0 || k < budget)
    && (going ==> RoundsFrom(v, budget, k) == Rounds(v, budget))
    && (!going ==> Rounds(v, budget) == k && Acknowledged(v, budget))
  }

  /** What one more round tells about the handshake: it ends on a match or
      when the counter reaches the budget, and it succeeds only when the
      match came before the last allowed round. */
  lemma MidwayStep(v: seq<bool>, budget: int, k: nat)
    requires Midway(v, budget, k, true)
    ensures k + 1 >= budget ==> Rounds(v, budget) == k + 1 && !Acknowledged(v, budget)
    ensures k + 1 < budget ==> Midway(v, budget, k + 1, !Hit(v, k))
  {
  }

  lemma {:induction false} RoundsFromFacts(v: seq<bool>, budget: int, k: nat)
    requires k < budget || k == 0
    ensures var n := RoundsFrom(v, budget, k);
      && k < n && (n <= budget || n == 1)
      && (forall i :: k <= i < n - 1 ==> !Hit(v, i))
      && (Hit(v, n - 1) || n >= budget)
    decreases if budget > k then budget - k else 0
  {
    if !(Hit(v, k) || k + 1 >= budget) {
      RoundsFromFacts(v, budget, k + 1);
    }
  }

  /** The handshake runs at least one round and at most `budget` rounds;
      every round before the last mismatched, and the last one matched or
      used up the budget. */
  lemma RoundsFacts(v: seq<bool>, budget: int)
    ensures var n := Rounds(v, budget);
      && 1 <= n && (n <= budget || n == 1)
      && (forall i :: 0 <= i < n - 1 ==> !Hit(v, i))
      && (Hit(v, n - 1) || n >= budget)
  {
    RoundsFromFacts(v, budget, 0);
  }

  /** The handshake succeeds exactly when some round numbered below
      budget - 1 (counting from 0) matches: a match on the last allowed round
      still fails. */
  lemma AcknowledgedIff(v: seq<bool>, budget: int)
    ensures Acknowledged(v, budget) <==> exists i :: 0 <= i < |v| && i + 1 < budget && v[i]
  {
    RoundsFacts(v, budget);
    var n := Rounds(v, budget);
    if exists i :: 0 <= i < |v| && i + 1 < budget && v[i] {
      var i :| 0 <= i < |v| && i + 1 < budget && v[i];
      assert Hit(v, i);
      assert n - 1 <= i;
    }
  }

  /** A match that only arrives on the final allowed round is reported as a
      failure, after `budget` rounds. */
  lemma MatchOnLastRoundFails(v: seq<bool>, budget: int)
    requires 1 <= budget <= |v|
    requires forall i :: 0 <= i < budget - 1 ==> !v[i]
    requires v[budget - 1]
    ensures Rounds(v, budget) == budget
    ensures !Acknowledged(v, budget)
  {
    RoundsFacts(v, budget);
    var n := Rounds(v, budget);
    assert !Hit(v, n - 1) ==> n >= budget;
  }

  /** Repeating a group of lines n times. */
  function Repeat(lines: seq<string>, n: nat): (r: seq<string>)
    ensures |r| == n * |lines|
  {
    if n == 0 then [] else Repeat(lines, n - 1) + lines
  }

  /** One more group of lines after n groups makes n + 1 groups. */
  lemma RepeatMore(before: seq<string>, lines: seq<string>, n: nat)
    ensures before + Repeat(lines, n) + lines == before + Repeat(lines, n + 1)
  {
  }

  /** Some reply confirms the target on a round numbered below budget - 1. */
  predicate Confirmed(replies: seq<string>, target: Mirror, budget: int) {
    exists i :: 0 <= i < |replies| && i + 1 < budget && Matches(replies[i], target)
  }

  /** One transition: what `sendstate` does once the mirror holds the target.
      Describing the new state looks the routing vector up in the reverse
      table and the valve in the valve-name table, so either lookup can fail
      before anything is written; otherwise the handshake runs, each round
      writing the whole frame and the status query and reading one reply. */
  datatype Exchange = Exchange(outcome: Outcome, sent: seq<string>, rest: seq<string>)

  function Transfer(target: Mirror, replies: seq<string>, budget: int): Exchange {
    if target.routing !in Routing.Inverse() then Exchange(Fail(UnknownRouting(target.routing)), [], replies)
    else if target.valve !in ValveNames then Exchange(Fail(UnknownValve(target.valve)), [], replies)
    else Handshaken(target, replies, budget)
  }

  /** The handshake of a transition: as many rounds as `Rounds` counts, each
      writing the frame and the status query and reading one reply, and a
      pass exactly when the handshake is acknowledged. */
  function Handshaken(target: Mirror, replies: seq<string>, budget: int): Exchange {
    var v := Verdicts(replies, target);
    var n := Rounds(v, budget);
    Exchange(if Acknowledged(v, budget) then Pass else Fail(HandshakeFailed),
             Repeat(RoundLines(target), n), Drop(replies, n))
  }

  /** A transition returns normally exactly when the target routing is a
      table vector, the valve is 0 or 1, and a reply matches early enough. */
  lemma TransferIff(target: Mirror, replies: seq<string>, budget: int)
    ensures Transfer(target, replies, budget).outcome == Pass <==>
            && target.routing in Routing.Inverse()
            && target.valve in {0, 1}
            && Confirmed(replies, target, budget)
  {
    AcknowledgedConfirmed(replies, target, budget);
  }

  /** The handshake over the device's replies succeeds exactly when one of
      them confirms the target early enough. */
  lemma AcknowledgedConfirmed(replies: seq<string>, target: Mirror, budget: int)
    ensures Acknowledged(Verdicts(replies, target), budget) <==> Confirmed(replies, target, budget)
  {
    var v := Verdicts(replies, target);
    AcknowledgedIff(v, budget);
    if Confirmed(replies, target, budget) {
      var i :| 0 <= i < |replies| && i + 1 < budget && Matches(replies[i], target);
      VerdictAt(replies, target, i);
    }
    if Acknowledged(v, budget) {
      var i :| 0 <= i < |v| && i + 1 < budget && v[i];
      VerdictAt(replies, target, i);
    }
  }

  /** Whatever the outcome, the lines sent are whole rounds, and exactly one
      reply is consumed per round; a failed lookup sends and reads nothing. */
  lemma TransferRounds(target: Mirror, replies: seq<string>, budget: int)
    ensures var x := Transfer(target, replies, budget);
      && (x.outcome != Pass ==> x.outcome.Fail?)
      && (exists n: nat :: x.sent == Repeat(RoundLines(target), n) && x.rest == Drop(replies, n))
      && (x.outcome.Fail? && !x.outcome.error.HandshakeFailed? ==> x.sent == [] && x.rest == replies)
  {
    var x := Transfer(target, replies, budget);
    if target.routing !in Routing.Inverse() || target.valve !in ValveNames {
      assert x.sent == Repeat(RoundLines(target), 0);
      assert x.rest == Drop(replies, 0);
    } else {
      var v := Verdicts(replies, target);
      assert x.sent == Repeat(RoundLines(target), Rounds(v, budget));
    }
  }

  /** With the default budget of 2, two mismatching replies mean exactly two
      full rounds and then the failure. */
  lemma TwoMismatchesFail(target: Mirror, replies: seq<string>)
    requires target.routing in Routing.Inverse() && target.valve in {0, 1}
    requires forall i :: 0 <= i < |replies| && i < 2 ==> !Matches(replies[i], target)
    ensures Transfer(target, replies, 2) ==
            Exchange(Fail(HandshakeFailed), RoundLines(target) + RoundLines(target), Drop(replies, 2))
  {
    var v := Verdicts(replies, target);
    if |replies| > 0 { VerdictAt(replies, target, 0); }
    if |replies| > 1 { VerdictAt(replies, target, 1); }
    assert !Hit(v, 0) && !Hit(v, 1);
    assert Rounds(v, 2) == 2;
    assert Repeat(RoundLines(target), 2) == RoundLines(target) + RoundLines(target) by {
      assert Repeat(RoundLines(target), 1) == RoundLines(target);
    }
  }

  // ---------------------------------------------------------------------
  // Heartbeat and discovery
  // ---------------------------------------------------------------------

  /** How a port behaves when probed: it cannot be opened (an I/O error), or
      it answers each ping with a reply until the discovery timeout; a reply
      is empty when the read timed out. */
  datatype PortLink = Unavailable | Link(polls: seq<string>)

  /** The reply that ends the ping loop: the first non-empty one, or nothing
      when every read before the timeout came back empty. */
  function FirstReply(polls: seq<string>): string
    decreases |polls|
  {
    if polls == [] then "" else if polls[0] != "" then polls[0] else FirstReply(polls[1..])
  }

  /** The number of pings the loop writes: one per read, and at least one. */
  function PollCount(polls: seq<string>): nat
    decreases |polls|
  {
    if |polls| <= 1 || polls[0] != "" then 1 else 1 + PollCount(polls[1..])
  }

  lemma {:induction false} FirstReplyFacts(polls: seq<string>)
    ensures FirstReply(polls) == "" <==> forall i :: 0 <= i < |polls| ==> polls[i] == ""
    ensures FirstReply(polls) != "" ==>
      exists i :: 0 <= i < |polls| && polls[i] == FirstReply(polls) && forall j :: 0 <= j < i ==> polls[j] == ""
    ensures 1 <= PollCount(polls) <= |polls| || (|polls| == 0 && PollCount(polls) == 1)
    decreases |polls|
  {
    if polls != [] && polls[0] == "" {
      FirstReplyFacts(polls[1..]);
      if FirstReply(polls) != "" {
        var i :| 0 <= i < |polls[1..]| && polls[1..][i] == FirstReply(polls[1..]) && forall j :: 0 <= j < i ==> polls[1..][j] == "";
        assert polls[i + 1] == FirstReply(polls);
        assert forall j :: 0 <= j < i + 1 ==> polls[j] == "" by {
          forall j | 0 <= j < i + 1 ensures polls[j] == "" {
            if j > 0 { assert polls[j] == polls[1..][j - 1]; }
          }
        }
      }
      if FirstReply(polls) == "" {
        forall i | 0 <= i < |polls| ensures polls[i] == "" {
          if i > 0 { assert polls[i] == polls[1..][i - 1]; }
        }
      }
    }
  }

  /** get_heartbeat: the port answered the ping with exactly the connect
      code; a port that cannot be opened counts as silent. */
  predicate Heartbeat(link: PortLink, code: string) {
    link.Link? && FirstReply(link.polls) == code
  }

  /** The ports discovery probes: the one given, or COM1 to COM256. */
  function Candidates(comport: Option<string>): seq<string> {
    match comport
    case Some(p) => [p]
    case None => seq(256, i requires 0 <= i < 256 => "COM" + IntToString(i + 1))
  }

  /** Without a given port, discovery probes 256 distinct ports named COM1 to
      COM256 in order; with one, only that port. */
  lemma CandidatesFacts(comport: Option<string>)
    ensures comport.Some? ==> Candidates(comport) == [comport.value]
    ensures comport.None? ==> |Candidates(comport)| == 256
    ensures comport.None? ==> forall i :: 0 <= i < 256 ==> Candidates(comport)[i] == "COM" + IntToString(i + 1)
    ensures comport.None? ==> forall i, j :: 0 <= i < j < 256 ==> Candidates(comport)[i] != Candidates(comport)[j]
  {
    if comport.None? {
      forall i, j | 0 <= i < j < 256 ensures Candidates(None)[i] != Candidates(None)[j] {
        CandidatesDiffer(i, j);
      }
    }
  }

  lemma CandidatesDiffer(i: nat, j: nat)
    requires i < j < 256
    ensures Candidates(None)[i] != Candidates(None)[j]
  {
    var a, b := "COM" + IntToString(i + 1), "COM" + IntToString(j + 1);
    assert a[3..] == IntToString(i + 1) && b[3..] == IntToString(j + 1);
    IntToStringInjective(i + 1, j + 1);
  }

  /** The ports that answered the heartbeat, in probing order. */
  function Responders(ports: seq<string>, code: string, probe: string -> PortLink): seq<string>
    decreases |ports|
  {
    if ports == [] then []
    else
      var last := ports[|ports| - 1];
      Responders(ports[..|ports| - 1], code, probe) + (if Heartbeat(probe(last), code) then [last] else [])
  }

  /** A port is a responder exactly when it was probed and answered with
      the code; there are never more responders than probed ports. */
  lemma {:induction false} RespondersFacts(ports: seq<string>, code: string, probe: string -> PortLink)
    ensures forall p :: p in Responders(ports, code, probe) <==> p in ports && Heartbeat(probe(p), code)
    ensures |Responders(ports, code, probe)| <= |ports|
    decreases |ports|
  {
    if ports != [] {
      var init := ports[..|ports| - 1];
      RespondersFacts(init, code, probe);
      assert ports == init + [ports[|ports| - 1]];
    }
  }
}
