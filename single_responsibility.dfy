/**
 * The journal of the Single Responsibility example: a titled list of
 * numbered entries, and the text that saving a journal writes.
 *
 * `Journal::AddEntry` numbers entries with a function-local `static int`
 * that starts at 1 and is shared by every journal in the process. Here that
 * counter is a `Counter` object which every `AddEntry` call receives, so two
 * journals given the same counter continue one numbering.
 */
module SingleResponsibility {

  import opened Decimal

  datatype Option<T> = None | Some(value: T)

  /** An entry line taken apart: its number and its text. */
  datatype Entry = Entry(id: nat, text: string)

  /** The line `AddEntry` stores: `to_string(id) + ": " + text`. */
  function EntryLine(id: nat, text: string): string {
    NatToString(id) + ": " + text
  }

  /** Length of the run of digits that starts `s`. */
  function DigitRun(s: string): (k: nat)
    ensures k <= |s| && AllDigits(s[..k])
    ensures k < |s| ==> !IsDigit(s[k])
    decreases |s|
  {
    if s == [] || !IsDigit(s[0]) then 0
    else
      assert forall i :: 1 <= i < 1 + DigitRun(s[1..]) ==> s[i] == s[1..][i - 1];
      1 + DigitRun(s[1..])
  }

  /** Reads an entry line back: a decimal number, then `": "`, then the text. */
  function ParseEntry(line: string): Option<Entry> {
    var k := DigitRun(line);
    if k == 0 || |line| < k + 2 || line[k..k + 2] != ": " then None
    else Some(Entry(StringToNat(line[..k]), line[k + 2..]))
  }

  /** The number and the text of an entry can be recovered from its line. */
  lemma EntryLineRoundTrip(id: nat, text: string)
    ensures ParseEntry(EntryLine(id, text)) == Some(Entry(id, text))
  {
    var d := NatToString(id);
    var line := EntryLine(id, text);
    assert line[|d|] == ':';
    assert forall i :: 0 <= i < |d| ==> line[i] == d[i];
    var k := DigitRun(line);
    assert k == |d|;
    assert line[..k] == d;
    assert line[k..k + 2] == ": ";
    assert line[k + 2..] == text;
    StringToNatOfNatToString(id);
  }

  /** Entries with different numbers are different lines, whatever their text. */
  lemma EntryLinesDistinct(m: nat, s: string, n: nat, t: string)
    requires m != n
    ensures EntryLine(m, s) != EntryLine(n, t)
  {
    EntryLineRoundTrip(m, s);
    EntryLineRoundTrip(n, t);
  }

  /** The text the save loop writes: each entry followed by `'\n'` (what `std::endl` puts out). */
  function Rendered(entries: seq<string>): (text: string)
    ensures (text == []) == (entries == [])
    ensures entries != [] ==> text[|text| - 1] == '\n'
  {
    if entries == [] then "" else entries[0] + "\n" + Rendered(entries[1..])
  }

  /** Saving a longer list writes the shorter list's text, then the rest, in order. */
  lemma {:induction false} RenderedAppend(a: seq<string>, b: seq<string>)
    ensures Rendered(a + b) == Rendered(a) + Rendered(b)
  {
    if a == [] {
      assert a + b == b;
    } else {
      assert (a + b)[0] == a[0];
      assert (a + b)[1..] == a[1..] + b;
      RenderedAppend(a[1..], b);
    }
  }

  /** Index of the first newline in `s`. */
  function NewlineIndex(s: string): (k: nat)
    requires '\n' in s
    ensures k < |s| && s[k] == '\n'
    ensures forall i :: 0 <= i < k ==> s[i] != '\n'
    decreases |s|
  {
    if s[0] == '\n' then 0
    else
      assert '\n' in s[1..] by {
        var j :| 0 <= j < |s| && s[j] == '\n';
        assert s[1..][j - 1] == '\n';
      }
      1 + NewlineIndex(s[1..])
  }

  /** Splits saved text back into its lines; text after the last newline is not a line. */
  function Lines(text: string): seq<string>
    decreases |text|
  {
    if '\n' !in text then []
    else
      var k := NewlineIndex(text);
      [text[..k]] + Lines(text[k + 1..])
  }

  predicate NoNewlines(entries: seq<string>) {
    forall i :: 0 <= i < |entries| ==> '\n' !in entries[i]
  }

  /** Saved text determines the entries, as long as no entry holds a newline itself. */
  lemma {:induction false} LinesOfRendered(entries: seq<string>)
    requires NoNewlines(entries)
    ensures Lines(Rendered(entries)) == entries
  {
    if entries != [] {
      var e, rest := entries[0], Rendered(entries[1..]);
      var text := Rendered(entries);
      assert text == e + "\n" + rest;
      assert text[|e|] == '\n';
      var k := NewlineIndex(text);
      assert k == |e|;
      assert text[..k] == e;
      assert text[k + 1..] == rest;
      assert NoNewlines(entries[1..]) by {
        forall i | 0 <= i < |entries[1..]|
          ensures '\n' !in entries[1..][i]
        {
          assert entries[1..][i] == entries[i + 1];
        }
      }
      LinesOfRendered(entries[1..]);
    }
  }

  /** The process-wide `static int entryID`, which starts at 1. */
  class Counter {
    var value: nat

    constructor ()
      ensures value == 1
    {
      value := 1;
    }
  }

  class Journal {
    var title: string
    var entries: seq<string>

    constructor (title: string)
      ensures this.title == title && entries == []
    {
      this.title := title;
      entries := [];
    }

    /**
     * Appends the line numbered by the counter's current value and advances the
     * counter; the title and the earlier entries stay as they were.
     */
    method AddEntry(text: string, counter: Counter)
      modifies this`entries, counter`value
      ensures entries == old(entries) + [EntryLine(old(counter.value), text)]
      // The next clause and the one on the title follow from the first and from the
      // frame; they are kept to state "one more entry, at the end" and "title kept" outright.
      ensures |entries| == |old(entries)| + 1 && entries[..|old(entries)|] == old(entries)
      ensures counter.value == old(counter.value) + 1
      ensures title == old(title)
    {
      entries := entries + [EntryLine(counter.value, text)];
      counter.value := counter.value + 1;
    }

    /** `Journal::Save`: writes every entry, in order, without changing the journal. */
    method Save() returns (written: string)
      ensures written == Rendered(entries)
    {
      written := WriteLines(entries);
    }
  }

  /** The loop both save functions run: `ofs << entry << std::endl` for each entry. */
  method WriteLines(lines: seq<string>) returns (written: string)
    ensures written == Rendered(lines)
  {
    written := "";
    for i := 0 to |lines|
      invariant written == Rendered(lines[..i])
    {
      assert lines[..i + 1] == lines[..i] + [lines[i]];
      RenderedAppend(lines[..i], [lines[i]]);
      written := written + lines[i] + "\n";
    }
    assert lines[..|lines|] == lines;
  }

  class PersistanceManager {
    /** `PersistanceManager::Save`: the same text, from a journal it only reads. */
    static method Save(journal: Journal) returns (written: string)
      ensures written == Rendered(journal.entries)
    {
      written := WriteLines(journal.entries);
    }
  }

  /** After `AddEntry`, the saved text grows by exactly the new line. */
  lemma RenderedAfterAdd(entries: seq<string>, id: nat, text: string)
    ensures Rendered(entries + [EntryLine(id, text)]) == Rendered(entries) + EntryLine(id, text) + "\n"
  {
    RenderedAppend(entries, [EntryLine(id, text)]);
  }

  /** The first line `main` adds, written out. */
  lemma MainFirstLine()
    ensures EntryLine(1, "I learned about Quaternions") == "1: I learned about Quaternions"
  {
    var text := "I learned about Quaternions";
    assert "1: " + text == "1: I learned about Quaternions";
    assert NatToString(1) + ": " == "1: " by { assert NatToString(1) == "1"; }
  }

  /** The second line `main` adds, written out. */
  lemma MainSecondLine()
    ensures EntryLine(2, "I have implemented a Quaternion class") == "2: I have implemented a Quaternion class"
  {
    var text := "I have implemented a Quaternion class";
    assert "2: " + text == "2: I have implemented a Quaternion class";
    assert NatToString(2) + ": " == "2: " by { assert NatToString(2) == "2"; }
  }

  /** `main`: one journal, two entries, then saved through the persistence manager. */
  method MainScenario() returns (entries: seq<string>, saved: string)
    ensures entries == ["1: I learned about Quaternions", "2: I have implemented a Quaternion class"]
    ensures saved == entries[0] + "\n" + entries[1] + "\n"
  {
    var t1, t2 := "I learned about Quaternions", "I have implemented a Quaternion class";
    var counter := new Counter();
    var journal := new Journal("Game Dev Journal");
    journal.AddEntry(t1, counter);
    journal.AddEntry(t2, counter);
    entries := journal.entries;
    assert entries == [EntryLine(1, t1), EntryLine(2, t2)];
    saved := PersistanceManager.Save(journal);
    assert entries[1..] == [entries[1]] && entries[1..][1..] == [];
    MainFirstLine();
    MainSecondLine();
  }

  /** The counter is shared: a second journal continues the first one's numbering. */
  method SharedCounterScenario() returns (first: seq<string>, second: seq<string>)
    ensures first == ["1: a", "3: c"]
    ensures second == ["2: b"]
  {
    assert NatToString(1) == "1" && NatToString(2) == "2" && NatToString(3) == "3";
    assert EntryLine(1, "a") == "1: a" && EntryLine(2, "b") == "2: b" && EntryLine(3, "c") == "3: c";
    var counter := new Counter();
    var j1 := new Journal("one");
    var j2 := new Journal("two");
    j1.AddEntry("a", counter);
    j2.AddEntry("b", counter);
    j1.AddEntry("c", counter);
    first, second := j1.entries, j2.entries;
  }
}
