/**
 * The debug logger of the calculators: three insertion-ordered dictionaries of
 * named values (inputs, intermediate calculations, outputs) that are filled
 * only when the logger is enabled, and a display that renders them as a block
 * of lines. The dictionaries are sequences of entries with distinct names;
 * the printed text is abstracted to a sequence of `Line`s.
 */
module Debugging {
  import opened Wrappers

  /** One named value of a section. */
  datatype Entry<V> = Entry(name: string, value: V)

  /** The keys of an insertion-ordered dictionary. */
  function Names<V>(d: seq<Entry<V>>): set<string> {
    set i | 0 <= i < |d| :: d[i].name
  }

  /** A dictionary has each key at most once. */
  predicate DistinctNames<V>(d: seq<Entry<V>>) {
    forall i, j :: 0 <= i < j < |d| ==> d[i].name != d[j].name
  }

  /** `d.get(name)`: the value stored under `name`, if any. */
  function Get<V>(d: seq<Entry<V>>, name: string): (r: Option<V>)
    ensures r.Some? <==> name in Names(d)
    ensures r.Some? ==> Entry(name, r.value) in d
  {
    if d == [] then None
    else if d[0].name == name then Some(d[0].value)
    else
      NamesOfTail(d);
      Get(d[1..], name)
  }

  /**
   * `d[name] = value`: an existing key keeps its position and takes the new
   * value; a new key is appended at the end.
   */
  function Put<V>(d: seq<Entry<V>>, name: string, value: V): (r: seq<Entry<V>>)
    ensures name in Names(d) ==> |r| == |d| && forall i :: 0 <= i < |d| ==> r[i].name == d[i].name
    ensures name !in Names(d) ==> r == d + [Entry(name, value)]
  {
    if d == [] then [Entry(name, value)]
    else if d[0].name == name then [Entry(name, value)] + d[1..]
    else
      NamesOfTail(d);
      [d[0]] + Put(d[1..], name, value)
  }

  /** The keys of a non-empty dictionary: its first key and those of the rest. */
  lemma NamesOfTail<V>(d: seq<Entry<V>>)
    requires d != []
    ensures Names(d) == {d[0].name} + Names(d[1..])
  {
    forall n | n in Names(d) ensures n in {d[0].name} + Names(d[1..]) {
      var i :| 0 <= i < |d| && d[i].name == n;
      if i > 0 { assert d[1..][i - 1].name == n; }
    }
  }

  /** After `d[name] = value`, looking `name` up gives `value` and every other key is as before. */
  lemma {:induction false} PutThenGet<V>(d: seq<Entry<V>>, name: string, value: V, other: string)
    ensures Get(Put(d, name, value), name) == Some(value)
    ensures other != name ==> Get(Put(d, name, value), other) == Get(d, other)
  {
    if d != [] && d[0].name != name {
      PutThenGet(d[1..], name, value, other);
      assert Put(d, name, value)[1..] == Put(d[1..], name, value);
    }
  }

  /** Assignment adds exactly its key to the dictionary's keys and keeps the keys distinct. */
  lemma {:induction false} PutKeys<V>(d: seq<Entry<V>>, name: string, value: V)
    ensures Names(Put(d, name, value)) == Names(d) + {name}
    ensures DistinctNames(d) ==> DistinctNames(Put(d, name, value))
  {
    var r := Put(d, name, value);
    if name in Names(d) {
      assert forall i :: 0 <= i < |d| ==> r[i].name == d[i].name;
      assert Names(r) == Names(d);
      assert DistinctNames(d) ==> DistinctNames(r);
    } else {
      assert r == d + [Entry(name, value)];
      assert Names(r) == Names(d) + {name} by {
        forall n | n in Names(r) ensures n in Names(d) + {name} {
          var i :| 0 <= i < |r| && r[i].name == n;
          if i < |d| { assert d[i].name == n; }
        }
        assert r[|d|].name == name;
        forall n | n in Names(d) ensures n in Names(r) {
          var i :| 0 <= i < |d| && d[i].name == n;
          assert r[i].name == n;
        }
      }
      if DistinctNames(d) {
        forall i, j | 0 <= i < j < |r| ensures r[i].name != r[j].name {
          if j == |d| { assert d[i].name in Names(d); }
        }
      }
    }
  }

  // ------------------------------------------------------------------ display

  /** The printed lines of a debug block, without their text formatting. */
  datatype Line<V> =
    | Banner(title: string)
    | Heading(section: string)
    | Rule
    | Item(name: string, value: V)
    | Closing(title: string)

  const InputsHeading: string := "Inputs"
  const CalculationsHeading: string := "Calculations"
  const OutputHeading: string := "Output"

  /** One item line per entry, in insertion order. */
  function Items<V>(d: seq<Entry<V>>): (lines: seq<Line<V>>)
    ensures |lines| == |d|
    ensures forall i :: 0 <= i < |d| ==> lines[i] == Item(d[i].name, d[i].value)
  {
    if d == [] then [] else Items(d[..|d| - 1]) + [Item(d[|d| - 1].name, d[|d| - 1].value)]
  }

  /** A section is printed only when it holds something: its heading, an optional rule, then its items. */
  function SectionLines<V>(heading: string, ruled: bool, d: seq<Entry<V>>): seq<Line<V>> {
    if d == [] then []
    else [Heading(heading)] + (if ruled then [Rule] else []) + Items(d)
  }

  /**
   * The whole block: nothing when disabled, otherwise the banner, the Inputs,
   * Calculations and Output sections (the last with a rule under its heading)
   * and the closing line.
   */
  function DisplayLines<V>(debug: bool, title: string, inputs: seq<Entry<V>>,
                           calculations: seq<Entry<V>>, outputs: seq<Entry<V>>): (lines: seq<Line<V>>)
    ensures lines == [] <==> !debug
  {
    if !debug then []
    else
      [Banner(title)]
      + SectionLines(InputsHeading, false, inputs)
      + SectionLines(CalculationsHeading, false, calculations)
      + SectionLines(OutputHeading, true, outputs)
      + [Closing(title)]
  }

  /** The entries the item lines show, in the order they are printed. */
  function ShownEntries<V>(lines: seq<Line<V>>): seq<Entry<V>> {
    if lines == [] then []
    else
      var rest := ShownEntries(lines[1..]);
      if lines[0].Item? then [Entry(lines[0].name, lines[0].value)] + rest else rest
  }

  lemma {:induction false} ShownEntriesAppend<V>(a: seq<Line<V>>, b: seq<Line<V>>)
    ensures ShownEntries(a + b) == ShownEntries(a) + ShownEntries(b)
  {
    if a == [] {
      assert a + b == b;
    } else {
      assert (a + b)[0] == a[0];
      assert (a + b)[1..] == a[1..] + b;
      ShownEntriesAppend(a[1..], b);
    }
  }

  lemma {:induction false} ShownItems<V>(d: seq<Entry<V>>)
    ensures ShownEntries(Items(d)) == d
  {
    if d != [] {
      var init := d[..|d| - 1];
      var last := d[|d| - 1];
      ShownItems(init);
      ShownEntriesAppend(Items(init), [Item(last.name, last.value)]);
      assert ShownEntries([Item(last.name, last.value)]) == [last];
      assert init + [last] == d;
    }
  }

  lemma ShownSection<V>(heading: string, ruled: bool, d: seq<Entry<V>>)
    ensures ShownEntries(SectionLines(heading, ruled, d)) == d
  {
    if d != [] {
      var head: seq<Line<V>> := [Heading(heading)] + (if ruled then [Rule] else []);
      ShownEntriesAppend(head, Items(d));
      ShownItems(d);
      if ruled {
        assert ShownEntries(head) == ShownEntries([Rule]);
      }
    }
  }

  /**
   * An enabled display shows every entry exactly once: the inputs, then the
   * calculations, then the outputs, each in insertion order.
   */
  lemma DisplayShowsEntriesInOrder<V>(title: string, inputs: seq<Entry<V>>,
                                      calculations: seq<Entry<V>>, outputs: seq<Entry<V>>)
    ensures ShownEntries(DisplayLines(true, title, inputs, calculations, outputs))
      == inputs + calculations + outputs
  {
    var a: seq<Line<V>> := [Banner(title)];
    var b := SectionLines(InputsHeading, false, inputs);
    var c := SectionLines(CalculationsHeading, false, calculations);
    var e := SectionLines(OutputHeading, true, outputs);
    var z: seq<Line<V>> := [Closing(title)];
    ShownEntriesAppend(a + b + c + e, z);
    ShownEntriesAppend(a + b + c, e);
    ShownEntriesAppend(a + b, c);
    ShownEntriesAppend(a, b);
    ShownSection(InputsHeading, false, inputs);
    ShownSection(CalculationsHeading, false, calculations);
    ShownSection(OutputHeading, true, outputs);
    assert ShownEntries(a) == [] && ShownEntries(z) == [];
  }

  /**
   * An enabled display opens with the banner and ends with the closing line,
   * both carrying the title, and prints a section's heading exactly when that
   * section is non-empty.
   */
  lemma DisplayFrame<V>(title: string, inputs: seq<Entry<V>>,
                        calculations: seq<Entry<V>>, outputs: seq<Entry<V>>)
    ensures var lines := DisplayLines(true, title, inputs, calculations, outputs);
      && lines[0] == Banner(title) && lines[|lines| - 1] == Closing(title)
      && (Heading(InputsHeading) in lines <==> inputs != [])
      && (Heading(CalculationsHeading) in lines <==> calculations != [])
      && (Heading(OutputHeading) in lines <==> outputs != [])
  {
    var lines := DisplayLines(true, title, inputs, calculations, outputs);
    var b := SectionLines(InputsHeading, false, inputs);
    var c := SectionLines(CalculationsHeading, false, calculations);
    var e := SectionLines(OutputHeading, true, outputs);
    assert lines == [Banner(title)] + b + c + e + [Closing(title)];
    HeadingsOfSection(InputsHeading, false, inputs);
    HeadingsOfSection(CalculationsHeading, false, calculations);
    HeadingsOfSection(OutputHeading, true, outputs);
  }

  lemma HeadingsOfSection<V>(heading: string, ruled: bool, d: seq<Entry<V>>)
    ensures forall h :: Heading(h) in SectionLines(heading, ruled, d) <==> h == heading && d != []
  {
    forall h ensures Heading(h) in SectionLines(heading, ruled, d) <==> h == heading && d != [] {
      if Heading(h) in SectionLines(heading, ruled, d) {
        var k :| 0 <= k < |SectionLines(heading, ruled, d)| && SectionLines(heading, ruled, d)[k] == Heading(h);
        var head: seq<Line<V>> := [Heading(heading)] + (if ruled then [Rule] else []);
        assert k < |head|;
      }
      if h == heading && d != [] {
        assert SectionLines(heading, ruled, d)[0] == Heading(h);
      }
    }
  }

  lemma ItemsSnoc<V>(d: seq<Entry<V>>, i: int)
    requires 0 <= i < |d|
    ensures Items(d[..i + 1]) == Items(d[..i]) + [Item(d[i].name, d[i].value)]
  {
    assert d[..i + 1][..i] == d[..i];
  }

  /** Appends a section's lines to `lines` one entry at a time. */
  method EmitSection<V>(lines: seq<Line<V>>, heading: string, ruled: bool, d: seq<Entry<V>>)
    returns (out: seq<Line<V>>)
    ensures out == lines + SectionLines(heading, ruled, d)
  {
    out := lines;
    if |d| > 0 {
      out := out + [Heading(heading)];
      if ruled {
        out := out + [Rule];
      }
      var prefix := [Heading(heading)] + (if ruled then [Rule] else []);
      assert out == lines + prefix;
      out := EmitItems(out, d);
      assert SectionLines(heading, ruled, d) == prefix + Items(d);
    }
  }

  /** Appends one item line per entry, in insertion order. */
  method EmitItems<V>(lines: seq<Line<V>>, d: seq<Entry<V>>) returns (out: seq<Line<V>>)
    ensures out == lines + Items(d)
  {
    out := lines;
    for i := 0 to |d|
      invariant out == lines + Items(d[..i])
    {
      ItemsSnoc(d, i);
      out := out + [Item(d[i].name, d[i].value)];
    }
    assert d[..|d|] == d;
  }

  // ------------------------------------------------------------------- logger

  class DebugLogger<V> {
    const debug: bool
    const title: string
    var inputs: seq<Entry<V>>
    var calculations: seq<Entry<V>>
    var outputs: seq<Entry<V>>

    /** Every section is a dictionary, and a disabled logger holds nothing. */
    ghost predicate Valid()
      reads this
    {
      && DistinctNames(inputs) && DistinctNames(calculations) && DistinctNames(outputs)
      && (!debug ==> inputs == [] && calculations == [] && outputs == [])
    }

    constructor (title: string, debug: bool)
      ensures Valid()
      ensures this.title == title && this.debug == debug
      ensures inputs == [] && calculations == [] && outputs == []
    {
      this.debug := debug;
      this.title := title;
      inputs := [];
      calculations := [];
      outputs := [];
    }

    /** `inputs[name] = value` when enabled; nothing otherwise. */
    method AddInput(name: string, value: V)
      requires Valid()
      modifies this`inputs
      ensures Valid()
      ensures inputs == if debug then Put(old(inputs), name, value) else old(inputs)
      ensures calculations == old(calculations) && outputs == old(outputs)
    {
      if debug {
        PutKeys(inputs, name, value);
        inputs := Put(inputs, name, value);
      }
    }

    /** `calculations[name] = value` when enabled; nothing otherwise. */
    method AddCalculation(name: string, value: V)
      requires Valid()
      modifies this`calculations
      ensures Valid()
      ensures calculations == if debug then Put(old(calculations), name, value) else old(calculations)
      ensures inputs == old(inputs) && outputs == old(outputs)
    {
      if debug {
        PutKeys(calculations, name, value);
        calculations := Put(calculations, name, value);
      }
    }

    /** `outputs[name] = value` when enabled; nothing otherwise. */
    method AddOutput(name: string, value: V)
      requires Valid()
      modifies this`outputs
      ensures Valid()
      ensures outputs == if debug then Put(old(outputs), name, value) else old(outputs)
      ensures inputs == old(inputs) && calculations == old(calculations)
    {
      if debug {
        PutKeys(outputs, name, value);
        outputs := Put(outputs, name, value);
      }
    }

    /** The lines the block prints, section by section. */
    method Display() returns (lines: seq<Line<V>>)
      ensures lines == DisplayLines(debug, title, inputs, calculations, outputs)
    {
      if !debug {
        return [];
      }
      lines := [Banner(title)];
      lines := EmitSection(lines, InputsHeading, false, inputs);
      lines := EmitSection(lines, CalculationsHeading, false, calculations);
      lines := EmitSection(lines, OutputHeading, true, outputs);
      lines := lines + [Closing(title)];
    }
  }

  /** One call a calculator makes on its logger. */
  datatype LogCall<V> =
    | AddInputCall(name: string, value: V)
    | AddCalculationCall(name: string, value: V)
    | AddOutputCall(name: string, value: V)

  /**
   * A logger created disabled stays empty whatever it is asked to record, and
   * its display prints nothing.
   */
  method ReplayDisabled<V>(title: string, calls: seq<LogCall<V>>)
    returns (inputs: seq<Entry<V>>, calculations: seq<Entry<V>>, outputs: seq<Entry<V>>, lines: seq<Line<V>>)
    ensures inputs == [] && calculations == [] && outputs == [] && lines == []
  {
    var logger := new DebugLogger<V>(title, false);
    for i := 0 to |calls|
      invariant logger.Valid() && !logger.debug
    {
      match calls[i]
      case AddInputCall(name, value) => logger.AddInput(name, value);
      case AddCalculationCall(name, value) => logger.AddCalculation(name, value);
      case AddOutputCall(name, value) => logger.AddOutput(name, value);
    }
    inputs, calculations, outputs := logger.inputs, logger.calculations, logger.outputs;
    lines := logger.Display();
  }
}
