/** The reagent routing table of the fluidics handler: every reagent line the
    device can select is named, and its name is bound to the 5-slot routing
    vector that points the device's multiplexers at that line. The reverse
    table maps a routing vector back to its reagent name (it is used to
    describe the device state). Both are Python dictionaries, so a later
    entry with an already-present key replaces the earlier one. */
module Routing {
  import opened Text

  /** Number of slots in a routing vector. */
  const Slots := 5

  /** The table, in its declaration order (which is also the order a
      dictionary iterates it in). */
  const Entries: seq<(string, seq<int>)> := [
    ("Probe 1", [0, 2, 1, 12, 0]), ("Probe 2", [0, 3, 1, 12, 0]), ("Probe 3", [0, 4, 1, 12, 0]),
    ("Probe 4", [0, 5, 1, 12, 0]), ("Probe 5", [0, 6, 1, 12, 0]), ("Probe 6", [0, 7, 1, 12, 0]),
    ("Probe 7", [0, 8, 1, 12, 0]), ("Probe 8", [0, 9, 1, 12, 0]), ("Probe 9", [0, 10, 1, 12, 0]),
    ("Probe 10", [0, 11, 1, 12, 0]), ("Probe 11", [0, 12, 1, 12, 0]), ("Probe 12", [0, 1, 2, 12, 0]),
    ("Probe 13", [0, 1, 3, 12, 0]), ("Probe 14", [0, 1, 4, 12, 0]), ("Probe 15", [0, 1, 5, 12, 0]),
    ("Probe 16", [0, 1, 6, 12, 0]), ("Probe 17", [0, 1, 7, 12, 0]), ("Probe 18", [0, 1, 8, 12, 0]),
    ("Probe 19", [0, 1, 9, 12, 0]), ("Probe 20", [0, 1, 10, 12, 0]), ("Probe 21", [0, 1, 11, 12, 0]),
    ("Probe 22", [0, 1, 12, 12, 0]), ("Probe 23", [0, 1, 1, 1, 0]), ("Probe 24", [0, 1, 1, 2, 0]),
    ("SSC", [0, 1, 1, 8, 0]), ("PFA(half-MeAc)", [0, 1, 1, 9, 0]), ("EtOH(MeAc)", [0, 1, 1, 10, 0]),
    ("Image", [0, 1, 1, 11, 0]), ("Cleave", [0, 1, 1, 12, 0])
  ]

  /** The number of probe lines, "Probe 1" to "Probe 24". */
  const ProbeCount := 24

  /** The reagent names in table order. */
  function Names(): (names: seq<string>)
    ensures |names| == |Entries|
    ensures forall i :: 0 <= i < |Entries| ==> names[i] == Entries[i].0
  {
    seq(|Entries|, i requires 0 <= i < |Entries| => Entries[i].0)
  }

  /** A dictionary built from key/value pairs in order; a later pair replaces
      an earlier one with the same key. */
  function DictOf<K(==,!new), V>(pairs: seq<(K, V)>): (m: map<K, V>)
    ensures forall k :: k in m <==> exists i :: 0 <= i < |pairs| && pairs[i].0 == k
    decreases |pairs|
  {
    if pairs == [] then map[]
    else
      var last := pairs[|pairs| - 1];
      var m := DictOf(pairs[..|pairs| - 1]);
      assert forall i :: 0 <= i < |pairs| - 1 ==> pairs[..|pairs| - 1][i] == pairs[i];
      m[last.0 := last.1]
  }

  /** A pair whose key no later pair repeats keeps its value. */
  lemma {:induction false} DictOfKeeps<K(!new), V>(pairs: seq<(K, V)>, i: nat)
    requires i < |pairs|
    requires forall j :: i < j < |pairs| ==> pairs[j].0 != pairs[i].0
    ensures pairs[i].0 in DictOf(pairs) && DictOf(pairs)[pairs[i].0] == pairs[i].1
    decreases |pairs|
  {
    if i < |pairs| - 1 {
      var init := pairs[..|pairs| - 1];
      DictOfKeeps(init, i);
    }
  }

  /** titanx_states: reagent name to routing vector. */
  function Table(): map<string, seq<int>> {
    DictOf(Entries)
  }

  /** titanx_states_inv: routing vector to reagent name, built by walking the
      table in order. */
  function Inverse(): map<seq<int>, string> {
    DictOf(seq(|Entries|, i requires 0 <= i < |Entries| => (Entries[i].1, Entries[i].0)))
  }

  /** "Probe " + str(c): the reagent a hybridization cycle loads. */
  function ProbeName(c: int): string {
    "Probe " + IntToString(c)
  }

  /** A proof device: the position of a table vector in the table, read off
      the one slot each group of entries varies. */
  function VectorIndex(v: seq<int>): int
    requires |v| == Slots
  {
    if v[1] >= 2 then v[1] - 2
    else if v[2] >= 2 then v[2] + 9
    else if v[3] <= 2 then v[3] + 21
    else v[3] + 16
  }

  lemma VectorIndexOfEntries()
    ensures forall i :: 0 <= i < |Entries| ==> |Entries[i].1| == Slots && VectorIndex(Entries[i].1) == i
  {
  }

  /** The first 24 entries are the probes, in cycle order. */
  lemma ProbeEntries()
    ensures forall i :: 0 <= i < ProbeCount ==> Entries[i].0 == ProbeName(i + 1)
  {
    ProbeEntriesFrom0();
    ProbeEntriesFrom3();
    ProbeEntriesFrom6();
    ProbeEntriesFrom9();
    ProbeEntriesFrom12();
    ProbeEntriesFrom15();
    ProbeEntriesFrom18();
    ProbeEntriesFrom21();
    forall i | 0 <= i < ProbeCount ensures Entries[i].0 == ProbeName(i + 1) {
      if i < 3 {
        assert 0 <= i < 3;
      } else if i < 6 {
        assert 3 <= i < 6;
      } else if i < 9 {
        assert 6 <= i < 9;
      } else if i < 12 {
        assert 9 <= i < 12;
      } else if i < 15 {
        assert 12 <= i < 15;
      } else if i < 18 {
        assert 15 <= i < 18;
      } else if i < 21 {
        assert 18 <= i < 21;
      } else {
        assert 21 <= i < 24;
      }
    }
  }

  lemma ProbeEntriesFrom0()
    ensures forall i :: 0 <= i < 3 ==> Entries[i].0 == ProbeName(i + 1)
  {
    assert ProbeName(1) == "Probe 1" by { assert IntToString(1) == [DigitChar(1)]; }
    assert ProbeName(2) == "Probe 2" by { assert IntToString(2) == [DigitChar(2)]; }
    assert ProbeName(3) == "Probe 3" by { assert IntToString(3) == [DigitChar(3)]; }
  }

  lemma ProbeEntriesFrom3()
    ensures forall i :: 3 <= i < 6 ==> Entries[i].0 == ProbeName(i + 1)
  {
    assert ProbeName(4) == "Probe 4" by { assert IntToString(4) == [DigitChar(4)]; }
    assert ProbeName(5) == "Probe 5" by { assert IntToString(5) == [DigitChar(5)]; }
    assert ProbeName(6) == "Probe 6" by { assert IntToString(6) == [DigitChar(6)]; }
  }

  lemma ProbeEntriesFrom6()
    ensures forall i :: 6 <= i < 9 ==> Entries[i].0 == ProbeName(i + 1)
  {
    assert ProbeName(7) == "Probe 7" by { assert IntToString(7) == [DigitChar(7)]; }
    assert ProbeName(8) == "Probe 8" by { assert IntToString(8) == [DigitChar(8)]; }
    assert ProbeName(9) == "Probe 9" by { assert IntToString(9) == [DigitChar(9)]; }
  }

  lemma ProbeEntriesFrom9()
    ensures forall i :: 9 <= i < 12 ==> Entries[i].0 == ProbeName(i + 1)
  {
    assert ProbeName(10) == "Probe 10" by { TwoDigits(10); }
    assert ProbeName(11) == "Probe 11" by { TwoDigits(11); }
    assert ProbeName(12) == "Probe 12" by { TwoDigits(12); }
  }

  lemma ProbeEntriesFrom12()
    ensures forall i :: 12 <= i < 15 ==> Entries[i].0 == ProbeName(i + 1)
  {
    assert ProbeName(13) == "Probe 13" by { TwoDigits(13); }
    assert ProbeName(14) == "Probe 14" by { TwoDigits(14); }
    assert ProbeName(15) == "Probe 15" by { TwoDigits(15); }
  }

  lemma ProbeEntriesFrom15()
    ensures forall i :: 15 <= i < 18 ==> Entries[i].0 == ProbeName(i + 1)
  {
    assert ProbeName(16) == "Probe 16" by { TwoDigits(16); }
    assert ProbeName(17) == "Probe 17" by { TwoDigits(17); }
    assert ProbeName(18) == "Probe 18" by { TwoDigits(18); }
  }

  lemma ProbeEntriesFrom18()
    ensures forall i :: 18 <= i < 21 ==> Entries[i].0 == ProbeName(i + 1)
  {
    assert ProbeName(19) == "Probe 19" by { TwoDigits(19); }
    assert ProbeName(20) == "Probe 20" by { TwoDigits(20); }
    assert ProbeName(21) == "Probe 21" by { TwoDigits(21); }
  }

  lemma ProbeEntriesFrom21()
    ensures forall i :: 21 <= i < 24 ==> Entries[i].0 == ProbeName(i + 1)
  {
    assert ProbeName(22) == "Probe 22" by { TwoDigits(22); }
    assert ProbeName(23) == "Probe 23" by { TwoDigits(23); }
    assert ProbeName(24) == "Probe 24" by { TwoDigits(24); }
  }

  lemma TwoDigits(n: nat)
    requires 10 <= n < 100
    ensures IntToString(n) == [DigitChar(n / 10), DigitChar(n % 10)]
  {
    assert NatToString(n) == NatToString(n / 10) + [DigitChar(n % 10)];
    assert NatToString(n / 10) == [DigitChar(n / 10)];
  }

  /** Different reagents are routed through different vectors: the table is
      injective. */
  lemma VectorsDistinct()
    ensures forall i, j :: 0 <= i < |Entries| && 0 <= j < |Entries| && i != j ==> Entries[i].1 != Entries[j].1
  {
    VectorIndexOfEntries();
  }

  /** Every reagent is named once. */
  lemma NamesDistinct()
    ensures forall i, j :: 0 <= i < |Entries| && 0 <= j < |Entries| && i != j ==> Entries[i].0 != Entries[j].0
  {
    ProbeEntries();
    forall i, j | 0 <= i < j < |Entries| ensures Entries[i].0 != Entries[j].0 {
      if j < ProbeCount {
        if Entries[i].0 == Entries[j].0 {
          assert IntToString(i + 1) == ProbeName(i + 1)[6..];
          assert IntToString(j + 1) == ProbeName(j + 1)[6..];
          IntToStringInjective(i + 1, j + 1);
        }
      } else if i < ProbeCount {
        assert ProbeName(i + 1)[1] == 'r';
        assert |Entries[j].0| < 7 || Entries[j].0[1] != 'r';
      } else {
        assert |Entries[i].0| != |Entries[j].0|;
      }
    }
  }

  /** Looking a reagent up finds its own vector. */
  lemma TableAt(i: nat)
    requires i < |Entries|
    ensures Entries[i].0 in Table() && Table()[Entries[i].0] == Entries[i].1
  {
    NamesDistinct();
    DictOfKeeps(Entries, i);
  }

  /** The names `clean` walks are the reagents of the table, each once. */
  lemma NamesInTable()
    ensures forall n :: n in Names() <==> n in Table()
    ensures forall i, j :: 0 <= i < j < |Names()| ==> Names()[i] != Names()[j]
  {
    NamesDistinct();
  }

  /** Looking a vector up finds its own reagent. */
  lemma InverseAt(i: nat)
    requires i < |Entries|
    ensures Entries[i].1 in Inverse() && Inverse()[Entries[i].1] == Entries[i].0
  {
    VectorsDistinct();
    var pairs := seq(|Entries|, k requires 0 <= k < |Entries| => (Entries[k].1, Entries[k].0));
    DictOfKeeps(pairs, i);
  }

  /** The reverse table undoes the table: for every reagent, the name of its
      vector is that reagent. */
  lemma InverseOfTable(name: string)
    requires name in Table()
    ensures Table()[name] in Inverse() && Inverse()[Table()[name]] == name
  {
    var i :| 0 <= i < |Entries| && Entries[i].0 == name;
    TableAt(i);
    InverseAt(i);
  }

  /** The table undoes the reverse table: the two are a bijection between the
      29 reagent names and the 29 routing vectors. */
  lemma TableOfInverse(v: seq<int>)
    requires v in Inverse()
    ensures Inverse()[v] in Table() && Table()[Inverse()[v]] == v
  {
    var pairs := seq(|Entries|, k requires 0 <= k < |Entries| => (Entries[k].1, Entries[k].0));
    var i :| 0 <= i < |pairs| && pairs[i].0 == v;
    TableAt(i);
    InverseAt(i);
  }

  /** Every routing vector has 5 slots, each a selector from 0 to 12. */
  lemma TableShape(name: string)
    requires name in Table()
    ensures |Table()[name]| == Slots
    ensures forall k :: 0 <= k < Slots ==> 0 <= Table()[name][k] <= 12
  {
    var i :| 0 <= i < |Entries| && Entries[i].0 == name;
    TableAt(i);
    EntriesShape();
  }

  lemma EntriesShape()
    ensures forall i :: 0 <= i < |Entries| ==> |Entries[i].1| == Slots
    ensures forall i, k :: 0 <= i < |Entries| && 0 <= k < Slots ==> 0 <= Entries[i].1[k] <= 12
  {
  }

  /** Hybridization cycle c finds its probe in the table exactly when
      1 <= c <= 24, and then it is the c-th entry. */
  lemma ProbeNameInTable(c: int)
    ensures ProbeName(c) in Table() <==> 1 <= c <= ProbeCount
    ensures 1 <= c <= ProbeCount ==> Table()[ProbeName(c)] == Entries[c - 1].1
  {
    if 1 <= c <= ProbeCount {
      ProbeNameListed(c);
    } else if ProbeName(c) in Table() {
      var i :| 0 <= i < |Entries| && Entries[i].0 == ProbeName(c);
      ProbeNameAt(c, i);
    }
  }

  lemma ProbeNameListed(c: int)
    requires 1 <= c <= ProbeCount
    ensures ProbeName(c) in Table() && Table()[ProbeName(c)] == Entries[c - 1].1
  {
    ProbeEntryAt(c - 1);
    TableAt(c - 1);
  }

  lemma ProbeEntryAt(i: nat)
    requires i < ProbeCount
    ensures Entries[i].0 == ProbeName(i + 1)
  {
    ProbeEntries();
  }

  /** Only entry c - 1 can carry the name of cycle c. */
  lemma ProbeNameAt(c: int, i: nat)
    requires i < |Entries|
    ensures Entries[i].0 == ProbeName(c) <==> i < ProbeCount && c == i + 1
  {
    ProbeEntries();
    if i < ProbeCount {
      ProbeNameInjective(i + 1, c);
    } else {
      OtherNames();
      assert ProbeName(c)[1] == 'r';
    }
  }

  lemma ProbeNameInjective(a: int, b: int)
    ensures ProbeName(a) == ProbeName(b) <==> a == b
  {
    assert IntToString(a) == ProbeName(a)[6..];
    assert IntToString(b) == ProbeName(b)[6..];
    IntToStringInjective(a, b);
  }

  /** The reagents after the probes have names that cannot be a probe's. */
  lemma OtherNames()
    ensures forall i :: ProbeCount <= i < |Entries| ==> |Entries[i].0| < 7 || Entries[i].0[1] != 'r'
  {
  }

  /** The power-on routing vector names no reagent: every table vector
      selects a line in slot 1. */
  lemma PowerOnVectorUnnamed()
    ensures [0, 0, 0, 0, 0] !in Inverse()
  {
    if [0, 0, 0, 0, 0] in Inverse() {
      InverseSelects([0, 0, 0, 0, 0]);
    }
  }

  lemma InverseSelects(v: seq<int>)
    requires v in Inverse()
    ensures |v| == Slots && v[1] >= 1
  {
    var pairs := seq(|Entries|, k requires 0 <= k < |Entries| => (Entries[k].1, Entries[k].0));
    var i :| 0 <= i < |pairs| && pairs[i].0 == v;
    EntriesShape();
    assert v == Entries[i].1;
  }
}
