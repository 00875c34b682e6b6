/** Server-sent events as lists of lines: splitting a line stream into events, rendering an event,
    and rewriting the data of an event (mcp_router/core/sse.py). */
module Sse {
  type Line = string

  type Event = seq<Line>

  // ------------------------------------------------------------ text and lines

  function Join(parts: seq<string>): string {
    if parts == [] then "" else if |parts| == 1 then parts[0] else parts[0] + "\n" + Join(parts[1..])
  }

  /** str.split on the newline: always at least one part. */
  function Split(text: string): (parts: seq<string>)
    ensures parts != []
  {
    if text == "" then [""]
    else
      var rest := Split(text[1..]);
      if text[0] == '\n' then [""] + rest else [[text[0]] + rest[0]] + rest[1..]
  }

  lemma {:induction false} JoinSplit(text: string)
    ensures Join(Split(text)) == text
  {
    if text != "" {
      var rest := Split(text[1..]);
      JoinSplit(text[1..]);
      if text[0] == '\n' {
        assert ([""] + rest)[1..] == rest;
      } else {
        JoinHead([text[0]], rest);
      }
    }
  }

  lemma JoinMore(first: string, rest: seq<string>)
    requires rest != []
    ensures Join([first] + rest) == first + ("\n" + Join(rest))
  {
    assert ([first] + rest)[1..] == rest;
    Regroup(first, "\n", Join(rest));
  }

  lemma Regroup(a: string, b: string, c: string)
    ensures (a + b) + c == a + (b + c)
  {
  }

  lemma JoinHead(head: string, parts: seq<string>)
    requires parts != []
    ensures Join([head + parts[0]] + parts[1..]) == head + Join(parts)
  {
    if |parts| == 1 {
      assert [head + parts[0]] + parts[1..] == [head + parts[0]];
    } else {
      hide Join;
      assert parts == [parts[0]] + parts[1..];
      JoinMore(parts[0], parts[1..]);
      JoinMore(head + parts[0], parts[1..]);
      Regroup(head, parts[0], "\n" + Join(parts[1..]));
    }
  }

  // ------------------------------------------------------------------- fields

  /** str.partition on the colon. */
  function Partition(line: Line): (string, bool, string) {
    if line == "" then ("", false, "")
    else if line[0] == ':' then ("", true, line[1..])
    else
      var (field, found, rest) := Partition(line[1..]);
      ([line[0]] + field, found, rest)
  }

  predicate IsData(line: Line) {
    line != "" && line[0] != ':' && Partition(line).0 == "data"
  }

  function ValueOf(line: Line): string {
    var (_, found, raw) := Partition(line);
    if found && raw != "" && raw[0] == ' ' then raw[1..] else raw
  }

  function DataLine(value: string): Line {
    if value == "" then "data:" else "data: " + value
  }

  lemma {:induction false} PartitionText(field: string, rest: string)
    requires ':' !in field
    ensures Partition(field + ":" + rest) == (field, true, rest)
  {
    var s := field + ":" + rest;
    if field == "" {
      assert s == ":" + rest && s[0] == ':' && s[1..] == rest;
    } else {
      PartitionText(field[1..], rest);
      assert s[1..] == field[1..] + ":" + rest && s[0] == field[0] && field[0] in field;
      assert [field[0]] + field[1..] == field;
    }
  }

  function WrittenAs(value: string): string {
    if value == "" then "" else " " + value
  }

  lemma DataLineShape(value: string)
    ensures DataLine(value) == "data" + ":" + WrittenAs(value)
    ensures ':' !in "data" && DataLine(value) != "" && DataLine(value)[0] != ':'
  {
  }

  /** A written data line is read back as its value. */
  lemma DataLineReads(value: string)
    ensures IsData(DataLine(value)) && ValueOf(DataLine(value)) == value
  {
    DataLineShape(value);
    PartitionText("data", WrittenAs(value));
    assert value != "" ==> WrittenAs(value)[1..] == value;
  }

  lemma {:induction false} PartitionParts(line: Line)
    ensures var (field, found, rest) := Partition(line);
      ':' !in field && line == field + (if found then ":" + rest else "") && (!found ==> rest == "")
  {
    if line != "" && line[0] != ':' {
      PartitionParts(line[1..]);
      var (field, found, rest) := Partition(line[1..]);
      assert line == [line[0]] + line[1..];
      assert [line[0]] + (field + (if found then ":" + rest else "")) ==
        ([line[0]] + field) + (if found then ":" + rest else "");
    }
  }

  /** A line is data if its field is: either the field alone, or the field, a colon and what follows, of
      which a single leading space does not belong to the value. */
  lemma DataLineIs(line: Line)
    ensures IsData(line) <==> line == "data" || "data:" <= line
    ensures line == "data" ==> ValueOf(line) == ""
    ensures "data:" <= line ==>
      ValueOf(line) == if |line| > 5 && line[5] == ' ' then line[6..] else line[5..]
  {
    PartitionParts(line);
    if line == "data" {
      assert Partition("data") == ("data", false, "") by { NoColon("data"); }
    } else if "data:" <= line {
      PartitionText("data", line[5..]);
      assert line == "data" + ":" + line[5..];
    }
  }

  lemma {:induction false} NoColon(line: Line)
    requires ':' !in line
    ensures Partition(line) == (line, false, "")
  {
    if line != "" {
      assert line[0] in line;
      NoColon(line[1..]);
      assert [line[0]] + line[1..] == line;
    }
  }

  // --------------------------------------------------- the data of an event

  function DataValues(lines: Event): seq<string> {
    if lines == [] then []
    else
      var last := lines[|lines| - 1];
      DataValues(lines[..|lines| - 1]) + if IsData(last) then [ValueOf(last)] else []
  }

  function DataIndexes(lines: Event): seq<nat> {
    if lines == [] then []
    else DataIndexes(lines[..|lines| - 1]) + if IsData(lines[|lines| - 1]) then [|lines| - 1] else []
  }

  function OtherLines(lines: Event): seq<Line> {
    if lines == [] then []
    else
      var last := lines[|lines| - 1];
      OtherLines(lines[..|lines| - 1]) + if IsData(last) then [] else [last]
  }

  /** The data a client extracts: section 9.2.6 of the WHATWG HTML Living Standard. */
  function Data(lines: Event): string {
    Join(DataValues(lines))
  }

  function DataLines(values: seq<string>): seq<Line> {
    seq(|values|, i requires 0 <= i < |values| => DataLine(values[i]))
  }

  // ---------------------------------------------------------------- transform

  /** As many data lines as before: each is overwritten in place. */
  function Overwrite(lines: Event, indexes: seq<nat>, replacement: seq<Line>): Event
    requires |indexes| == |replacement| && forall k :: 0 <= k < |indexes| ==> indexes[k] < |lines|
    ensures |Overwrite(lines, indexes, replacement)| == |lines|
  {
    if indexes == [] then lines
    else
      var n := |indexes| - 1;
      Overwrite(lines, indexes[..n], replacement[..n])[indexes[n] := replacement[n]]
  }

  /** Otherwise they all go where the first one was; this is the result for the first `n` lines. */
  function Splice(lines: Event, first: nat, replacement: seq<Line>, n: nat): Event
    requires n <= |lines|
  {
    if n == 0 then []
    else
      Splice(lines, first, replacement, n - 1)
      + (if n - 1 == first then replacement else []) + (if IsData(lines[n - 1]) then [] else [lines[n - 1]])
  }

  function Transform(lines: Event, f: string -> string): Event {
    var indexes, values := DataIndexes(lines), DataValues(lines);
    IndexesMatch(lines);
    if indexes == [] || f(Join(values)) == Join(values) then lines
    else
      var replacement := DataLines(Split(f(Join(values))));
      if |replacement| == |indexes| then Overwrite(lines, indexes, replacement)
      else Splice(lines, indexes[0], replacement, |lines|)
  }

  lemma {:induction false} IndexesMatch(lines: Event)
    ensures |DataIndexes(lines)| == |DataValues(lines)|
    ensures forall k :: 0 <= k < |DataIndexes(lines)| ==>
      DataIndexes(lines)[k] < |lines| && IsData(lines[DataIndexes(lines)[k]])
    ensures forall i :: 0 <= i < |lines| && IsData(lines[i]) ==> i in DataIndexes(lines)
    ensures forall i, j :: 0 <= i < j < |DataIndexes(lines)| ==> DataIndexes(lines)[i] < DataIndexes(lines)[j]
  {
    if lines != [] {
      var n := |lines| - 1;
      IndexesMatch(lines[..n]);
      assert forall i :: 0 <= i < n ==> lines[..n][i] == lines[i];
    }
  }

  lemma {:induction false} SplitValues(a: Event, b: Event)
    ensures DataValues(a + b) == DataValues(a) + DataValues(b)
  {
    if b == [] {
      assert a + b == a;
    } else {
      SplitValues(a, b[..|b| - 1]);
      assert (a + b)[..|a + b| - 1] == a + b[..|b| - 1] && (a + b)[|a + b| - 1] == b[|b| - 1];
    }
  }

  lemma {:induction false} SplitOthers(a: Event, b: Event)
    ensures OtherLines(a + b) == OtherLines(a) + OtherLines(b)
  {
    if b == [] {
      assert a + b == a;
    } else {
      SplitOthers(a, b[..|b| - 1]);
      assert (a + b)[..|a + b| - 1] == a + b[..|b| - 1] && (a + b)[|a + b| - 1] == b[|b| - 1];
    }
  }

  lemma {:induction false} DataLinesRead(values: seq<string>)
    ensures DataValues(DataLines(values)) == values && OtherLines(DataLines(values)) == []
  {
    if values != [] {
      var n := |values| - 1;
      DataLinesRead(values[..n]);
      DataLineReads(values[n]);
      assert DataLines(values)[..n] == DataLines(values[..n]);
    }
  }

  lemma OverwriteStep(lines: Event, indexes: seq<nat>, replacement: seq<Line>)
    requires |indexes| == |replacement| && forall k :: 0 <= k < |indexes| ==> indexes[k] < |lines|
    ensures Overwrite(lines, indexes, replacement) ==
      if indexes == [] then lines
      else
        var n := |indexes| - 1; Overwrite(lines, indexes[..n], replacement[..n])[indexes[n] := replacement[n]]
  {
  }

  lemma {:induction false} OverwriteAt(lines: Event, indexes: seq<nat>, replacement: seq<Line>)
    requires |indexes| == |replacement| && forall k :: 0 <= k < |indexes| ==> indexes[k] < |lines|
    requires forall i, j :: 0 <= i < j < |indexes| ==> indexes[i] < indexes[j]
    ensures forall k :: 0 <= k < |indexes| ==> Overwrite(lines, indexes, replacement)[indexes[k]] == replacement[k]
    ensures forall i :: 0 <= i < |lines| && i !in indexes ==> Overwrite(lines, indexes, replacement)[i] == lines[i]
  {
    hide *;
    OverwriteStep(lines, indexes, replacement);
    if indexes != [] {
      var n := |indexes| - 1;
      var before := Overwrite(lines, indexes[..n], replacement[..n]);
      OverwriteAt(lines, indexes[..n], replacement[..n]);
      var after := before[indexes[n] := replacement[n]];
      forall k | 0 <= k < |indexes| ensures after[indexes[k]] == replacement[k] {
        if k < n { assert indexes[..n][k] == indexes[k] < indexes[n] && replacement[..n][k] == replacement[k]; }
      }
      forall i | 0 <= i < |lines| && i !in indexes ensures after[i] == lines[i] {
        assert i !in indexes[..n];
      }
    }
  }

  /** Overwriting the data lines, seen on the first `n` lines. */
  lemma {:induction false} OverwriteReads(lines: Event, out: Event, values: seq<string>, n: nat)
    requires |out| == |lines| && n <= |lines| && |values| == |DataIndexes(lines)|
    requires forall k :: 0 <= k < |values| ==>
      DataIndexes(lines)[k] < |lines| && out[DataIndexes(lines)[k]] == DataLine(values[k])
    requires forall i :: 0 <= i < |lines| && !IsData(lines[i]) ==> out[i] == lines[i]
    requires DataIndexes(lines[..n]) <= DataIndexes(lines)
    ensures DataValues(out[..n]) == values[..|DataIndexes(lines[..n])|]
    ensures OtherLines(out[..n]) == OtherLines(lines[..n])
  {
    if n > 0 {
      assert lines[..n][..n - 1] == lines[..n - 1] && out[..n][..n - 1] == out[..n - 1];
      OverwriteReads(lines, out, values, n - 1);
      var k := |DataIndexes(lines[..n - 1])|;
      if IsData(lines[n - 1]) {
        assert DataIndexes(lines)[k] == DataIndexes(lines[..n])[k] == n - 1;
        DataLineReads(values[k]);
        assert values[..k + 1] == values[..k] + [values[k]];
      }
    }
  }

  lemma SpliceTurn(before: Event, middle: seq<Line>, line: Line)
    requires OtherLines(middle) == []
    ensures DataValues(before + middle + if IsData(line) then [] else [line]) == DataValues(before) + DataValues(middle)
    ensures OtherLines(before + middle + if IsData(line) then [] else [line]) ==
      OtherLines(before) + if IsData(line) then [] else [line]
  {
    var last := if IsData(line) then [] else [line];
    SplitValues(before + middle, last);
    SplitValues(before, middle);
    SplitOthers(before + middle, last);
    SplitOthers(before, middle);
    OneLine(line);
  }

  lemma {:induction false} SpliceReads(lines: Event, first: nat, values: seq<string>, replacement: seq<Line>, n: nat)
    requires n <= |lines| && DataValues(replacement) == values && OtherLines(replacement) == []
    ensures DataValues(Splice(lines, first, replacement, n)) == if first < n then values else []
  {
    hide *;
    NoLines();
    if n == 0 {
      NothingSpliced(lines, first, replacement);
    } else {
      var before := Splice(lines, first, replacement, n - 1);
      SpliceReads(lines, first, values, replacement, n - 1);
      SpliceStep(lines, first, replacement, n);
      if n - 1 == first {
        SpliceTurn(before, replacement, lines[n - 1]);
        assert [] + values == values;
      } else {
        SpliceTurn(before, [], lines[n - 1]);
        assert values + [] == values;
      }
    }
  }

  lemma NothingSpliced(lines: Event, first: nat, replacement: seq<Line>)
    ensures Splice(lines, first, replacement, 0) == []
  {
  }

  lemma NoLines()
    ensures DataValues([]) == [] && OtherLines([]) == []
  {
  }

  lemma SpliceStep(lines: Event, first: nat, replacement: seq<Line>, n: nat)
    requires 0 < n <= |lines|
    ensures Splice(lines, first, replacement, n) ==
      Splice(lines, first, replacement, n - 1) + (if n - 1 == first then replacement else [])
      + if IsData(lines[n - 1]) then [] else [lines[n - 1]]
  {
  }

  lemma {:induction false} SpliceLeaves(lines: Event, first: nat, replacement: seq<Line>, n: nat)
    requires n <= |lines| && OtherLines(replacement) == []
    ensures OtherLines(Splice(lines, first, replacement, n)) == OtherLines(lines[..n])
  {
    if n > 0 {
      SpliceLeaves(lines, first, replacement, n - 1);
      SpliceTurn(Splice(lines, first, replacement, n - 1), if n - 1 == first then replacement else [], lines[n - 1]);
      assert lines[..n][..n - 1] == lines[..n - 1];
    }
  }

  lemma OneLine(line: Line)
    ensures !IsData(line) ==> DataValues([line]) == [] && OtherLines([line]) == [line]
  {
    assert [line][..0] == [];
  }

  lemma OverwriteMeans(lines: Event, values: seq<string>)
    requires |values| == |DataIndexes(lines)| && forall k :: 0 <= k < |values| ==> DataIndexes(lines)[k] < |lines|
    ensures var out := Overwrite(lines, DataIndexes(lines), DataLines(values));
      DataValues(out) == values && OtherLines(out) == OtherLines(lines)
  {
    IndexesMatch(lines);
    var out := Overwrite(lines, DataIndexes(lines), DataLines(values));
    OverwriteAt(lines, DataIndexes(lines), DataLines(values));
    assert lines[..|lines|] == lines && out[..|lines|] == out && values[..|values|] == values;
    OverwriteReads(lines, out, values, |lines|);
  }

  lemma SpliceMeans(lines: Event, values: seq<string>)
    requires DataIndexes(lines) != []
    ensures var out := Splice(lines, DataIndexes(lines)[0], DataLines(values), |lines|);
      DataValues(out) == values && OtherLines(out) == OtherLines(lines)
  {
    IndexesMatch(lines);
    DataLinesRead(values);
    SpliceReads(lines, DataIndexes(lines)[0], values, DataLines(values), |lines|);
    SpliceLeaves(lines, DataIndexes(lines)[0], DataLines(values), |lines|);
    assert lines[..|lines|] == lines;
  }

  /** The data of the transformed event is the transform of its data, and every other line stays, in
      order; an event without data stays as it is. */
  lemma TransformMeans(lines: Event, f: string -> string)
    ensures DataValues(lines) != [] ==>
      DataValues(Transform(lines, f)) != [] && Data(Transform(lines, f)) == f(Data(lines))
    ensures OtherLines(Transform(lines, f)) == OtherLines(lines)
    ensures DataValues(lines) == [] ==> Transform(lines, f) == lines
  {
    IndexesMatch(lines);
    var parts := Split(f(Data(lines)));
    JoinSplit(f(Data(lines)));
    if DataValues(lines) != [] {
      if |parts| == |DataIndexes(lines)| {
        OverwriteMeans(lines, parts);
      } else {
        SpliceMeans(lines, parts);
      }
    }
  }

  /** The in-place loops. */
  method TransformSseEvent(lines: Event, f: string -> string) returns (output: Event)
    ensures output == Transform(lines, f)
  {
    var indexes: seq<nat>, values: seq<string> := [], [];
    for i := 0 to |lines|
      invariant indexes == DataIndexes(lines[..i]) && values == DataValues(lines[..i])
    {
      assert lines[..i + 1][..i] == lines[..i];
      if lines[i] != "" && lines[i][0] == ':' {
        continue;
      }
      var (field, found, raw) := Partition(lines[i]);
      if field != "data" {
        continue;
      }
      var value := if found && raw != "" && raw[0] == ' ' then raw[1..] else raw;
      indexes := indexes + [i];
      values := values + [value];
    }
    assert lines[..|lines|] == lines;
    IndexesMatch(lines);
    if indexes == [] {
      return lines;
    }
    var transformed := f(Join(values));
    if transformed == Join(values) {
      return lines;
    }
    var replacement := DataLines(Split(transformed));
    if |replacement| == |indexes| {
      output := OverwriteLines(lines, indexes, replacement);
    } else {
      output := SpliceLines(lines, indexes, replacement);
    }
  }

  method OverwriteLines(lines: Event, indexes: seq<nat>, replacement: seq<Line>) returns (output: Event)
    requires |indexes| == |replacement| && forall k :: 0 <= k < |indexes| ==> indexes[k] < |lines|
    ensures output == Overwrite(lines, indexes, replacement)
  {
    output := lines;
    for k := 0 to |indexes|
      invariant output == Overwrite(lines, indexes[..k], replacement[..k])
    {
      assert indexes[..k + 1][..k] == indexes[..k] && replacement[..k + 1][..k] == replacement[..k];
      output := output[indexes[k] := replacement[k]];
    }
    assert indexes[..|indexes|] == indexes && replacement[..|indexes|] == replacement;
  }

  method SpliceLines(lines: Event, indexes: seq<nat>, replacement: seq<Line>) returns (output: Event)
    requires indexes != [] && indexes == DataIndexes(lines)
    ensures output == Splice(lines, indexes[0], replacement, |lines|)
  {
    IndexesMatch(lines);
    output := [];
    for i := 0 to |lines|
      invariant output == Splice(lines, indexes[0], replacement, i)
    {
      if i == indexes[0] {
        output := output + replacement;
      }
      if i in indexes {
        continue;
      }
      output := output + [lines[i]];
    }
  }

  // --------------------------------------------------------------- round trip

  function Render(lines: Event): string {
    Join(lines) + "\n\n"
  }

  function RenderAll(events: seq<Event>): string {
    if events == [] then "" else Render(events[0]) + RenderAll(events[1..])
  }

  /** The lines of a text: what follows the last newline is a line only if it is not empty. */
  function Lines(text: string, line: Line): seq<Line>
    decreases |text|
  {
    if text == "" then (if line == "" then [] else [line])
    else if text[0] == '\n' then [line] + Lines(text[1..], "")
    else Lines(text[1..], line + [text[0]])
  }

  /** `iter_sse_events`, with the lines of the event under way. */
  function Events(lines: seq<Line>, event: Event): seq<Event>
    decreases |lines|
  {
    if lines == [] then (if event == [] then [] else [event])
    else if lines[0] == "" then [event] + Events(lines[1..], [])
    else Events(lines[1..], event + [lines[0]])
  }

  method IterSseEvents(lines: seq<Line>) returns (events: seq<Event>)
    ensures events == Events(lines, [])
  {
    events := [];
    var event: Event := [];
    for i := 0 to |lines|
      invariant events + Events(lines[i..], event) == Events(lines, [])
    {
      assert lines[i..][0] == lines[i] && lines[i..][1..] == lines[i + 1..];
      if lines[i] == "" {
        YieldOne(events, event, Events(lines[i + 1..], []));
        events := events + [event];
        event := [];
        continue;
      }
      event := event + [lines[i]];
    }
    if event != [] {
      events := events + [event];
    }
  }

  lemma YieldOne(events: seq<Event>, event: Event, rest: seq<Event>)
    ensures events + ([event] + rest) == events + [event] + rest
  {
  }

  predicate Clean(line: Line) {
    line != "" && '\n' !in line
  }

  lemma {:induction false} LineReads(done: string, line: string, rest: string)
    requires '\n' !in line
    ensures Lines(line + "\n" + rest, done) == [done + line] + Lines(rest, "")
    decreases |line|
  {
    var text := line + "\n" + rest;
    if line == "" {
      assert text == "\n" + rest && text[0] == '\n' && text[1..] == rest && done + line == done;
    } else {
      assert text[0] == line[0] && line[0] in line && text[1..] == line[1..] + "\n" + rest;
      LineReads(done + [line[0]], line[1..], rest);
      assert done + [line[0]] + line[1..] == done + line;
      assert Lines(text, done) == Lines(text[1..], done + [line[0]]);
    }
  }

  lemma FirstLine(line: string, rest: string)
    requires '\n' !in line
    ensures Lines(line + "\n" + rest, "") == [line] + Lines(rest, "")
  {
    LineReads("", line, rest);
    assert "" + line == line;
  }

  lemma JoinSplits(event: Event, rest: string)
    requires |event| > 1
    ensures Join(event) + "\n" + rest == event[0] + "\n" + (Join(event[1..]) + "\n" + rest)
  {
  }

  lemma {:induction false} EventReads(event: Event, rest: string)
    requires event != [] && forall i :: 0 <= i < |event| ==> '\n' !in event[i]
    ensures Lines(Join(event) + "\n" + rest, "") == event + Lines(rest, "")
  {
    var others := Lines(rest, "");
    assert event + others == [event[0]] + (event[1..] + others);
    if |event| == 1 {
      FirstLine(event[0], rest);
    } else {
      JoinSplits(event, rest);
      FirstLine(event[0], Join(event[1..]) + "\n" + rest);
      EventReads(event[1..], rest);
    }
  }

  /** The lines of a rendered event: its own, and the blank one; a rendered empty event is two blanks. */
  lemma RenderReads(event: Event, rest: string)
    requires forall i :: 0 <= i < |event| ==> '\n' !in event[i]
    ensures Lines(Render(event) + rest, "") == (if event == [] then [""] else event) + [""] + Lines(rest, "")
  {
    var shown: Event := if event == [] then [""] else event;
    assert Render(event) + rest == Join(shown) + "\n" + ("\n" + rest);
    EventReads(shown, "\n" + rest);
    assert ("\n" + rest)[1..] == rest;
    assert shown + ([""] + Lines(rest, "")) == shown + [""] + Lines(rest, "");
  }

  lemma {:induction false} EventsRead(done: Event, event: Event, rest: seq<Line>)
    requires forall i :: 0 <= i < |event| ==> event[i] != ""
    ensures Events(event + [""] + rest, done) == [done + event] + Events(rest, [])
    decreases |event|
  {
    var lines := event + [""] + rest;
    if event == [] {
      assert lines[0] == "" && lines[1..] == rest && done + event == done;
    } else {
      assert lines[0] == event[0] && lines[1..] == event[1..] + [""] + rest;
      EventsRead(done + [event[0]], event[1..], rest);
      assert done + [event[0]] + event[1..] == done + event;
    }
  }

  ghost predicate AllClean(event: Event) {
    forall i :: 0 <= i < |event| ==> Clean(event[i])
  }

  /** What is read back of events with clean lines: each of them, and an empty one more for each empty one. */
  function ReadBack(events: seq<Event>): seq<Event> {
    if events == [] then []
    else (if events[0] == [] then [[], []] else [events[0]]) + ReadBack(events[1..])
  }

  lemma {:induction false} RenderAllReads(events: seq<Event>)
    requires forall e <- events :: AllClean(e)
    ensures Events(Lines(RenderAll(events), ""), []) == ReadBack(events)
  {
    if events != [] {
      var e, rest := events[0], RenderAll(events[1..]);
      assert AllClean(e);
      RenderAllReads(events[1..]);
      RenderReads(e, rest);
      if e == [] {
        assert [""] + [""] + Lines(rest, "") == [] + [""] + ([] + [""] + Lines(rest, ""));
        EventsRead([], [], [] + [""] + Lines(rest, ""));
        EventsRead([], [], Lines(rest, ""));
      } else {
        EventsRead([], e, Lines(rest, ""));
        assert [] + e == e;
      }
    }
  }

  lemma {:induction false} LinesAreSingle(text: string, line: Line)
    requires '\n' !in line
    ensures forall l <- Lines(text, line) :: '\n' !in l
    decreases |text|
  {
    if text != "" {
      LinesAreSingle(text[1..], if text[0] == '\n' then "" else line + [text[0]]);
    }
  }

  lemma {:induction false} EventsAreClean(lines: seq<Line>, event: Event)
    requires AllClean(event) && forall l <- lines :: '\n' !in l
    ensures forall e <- Events(lines, event) :: AllClean(e)
    decreases |lines|
  {
    if lines != [] {
      assert lines[0] in lines;
      EventsAreClean(lines[1..], if lines[0] == "" then [] else event + [lines[0]]);
    }
  }

  lemma {:induction false} ReadBackLonger(events: seq<Event>)
    ensures |ReadBack(events)| >= |events|
    ensures |ReadBack(events)| == |events| ==> forall i :: 0 <= i < |events| ==> events[i] != []
    ensures (forall i :: 0 <= i < |events| ==> events[i] != []) ==> ReadBack(events) == events
  {
    if events != [] {
      ReadBackLonger(events[1..]);
      assert events == [events[0]] + events[1..];
      assert forall i :: 1 <= i < |events| ==> events[i] == events[1..][i - 1];
    }
  }

  lemma {:induction false} EventAtEnd(done: Event, event: Event)
    requires forall i :: 0 <= i < |event| ==> event[i] != ""
    ensures Events(event, done) == if done + event == [] then [] else [done + event]
    decreases |event|
  {
    if event == [] {
      assert done + event == done;
    } else {
      EventAtEnd(done + [event[0]], event[1..]);
      assert done + [event[0]] + event[1..] == done + event;
    }
  }

  lemma {:induction false} RenderedThen(events: seq<Event>, rest: string)
    requires Presentable(events)
    ensures Events(Lines(RenderAll(events) + rest, ""), []) == events + Events(Lines(rest, ""), [])
  {
    hide Lines, Events, Render;
    var more := Events(Lines(rest, ""), []);
    if events == [] {
      assert "" + rest == rest && events + more == more;
    } else {
      var e, later := events[0], RenderAll(events[1..]) + rest;
      assert AllClean(e) && e != [];
      RenderedThen(events[1..], rest);
      RenderReads(e, later);
      assert RenderAll(events) + rest == Render(e) + later;
      EventsRead([], e, Lines(later, ""));
      assert [] + e == e && events + more == [e] + (events[1..] + more);
    }
  }

  lemma {:induction false} LastLine(done: string, line: string)
    requires '\n' !in line
    ensures Lines(line, done) == if done + line == "" then [] else [done + line]
    decreases |line|
  {
    if line == "" {
      assert done + line == done;
    } else {
      assert line[0] in line;
      LastLine(done + [line[0]], line[1..]);
      assert done + [line[0]] + line[1..] == done + line;
    }
  }

  lemma {:induction false} UnendedReads(event: Event)
    requires event != [] && AllClean(event)
    ensures Lines(Join(event), "") == event
  {
    if |event| == 1 {
      LastLine("", event[0]);
      assert "" + event[0] == event[0];
    } else {
      FirstLine(event[0], Join(event[1..]));
      UnendedReads(event[1..]);
      assert event == [event[0]] + event[1..];
    }
  }

  /** A stream that breaks off before the blank line of its last event, or even before the newline of its
      last line, still yields that event. */
  lemma CutRoundTrip(events: seq<Event>, last: Event)
    requires Presentable(events) && last != [] && AllClean(last)
    ensures Events(Lines(RenderAll(events) + (Join(last) + "\n"), ""), []) == events + [last]
    ensures Events(Lines(RenderAll(events) + Join(last), ""), []) == events + [last]
  {
    RenderedThen(events, Join(last) + "\n");
    RenderedThen(events, Join(last));
    EventReads(last, "");
    assert Join(last) + "\n" + "" == Join(last) + "\n" && last + Lines("", "") == last;
    UnendedReads(last);
    EventAtEnd([], last);
    assert [] + last == last;
  }

  ghost predicate Presentable(events: seq<Event>) {
    forall i :: 0 <= i < |events| ==> events[i] != [] && AllClean(events[i])
  }

  lemma SurvivorsArePresentable(events: seq<Event>)
    requires Events(Lines(RenderAll(events), ""), []) == events
    ensures Presentable(events)
  {
    LinesAreSingle(RenderAll(events), "");
    EventsAreClean(Lines(RenderAll(events), ""), []);
    forall e | e in events ensures AllClean(e) {
      assert e in Events(Lines(RenderAll(events), ""), []);
    }
    RenderAllReads(events);
    ReadBackLonger(events);
  }

  lemma PresentableSurvive(events: seq<Event>)
    requires Presentable(events)
    ensures Events(Lines(RenderAll(events), ""), []) == events
  {
    RenderAllReads(events);
    ReadBackLonger(events);
  }

  /** Rendered events split on newlines and parsed again are the same events exactly when each has a
      line and no line is empty or holds a newline. */
  lemma RoundTripIff(events: seq<Event>)
    ensures Events(Lines(RenderAll(events), ""), []) == events <==> Presentable(events)
  {
    if Presentable(events) {
      PresentableSurvive(events);
    }
    if Events(Lines(RenderAll(events), ""), []) == events {
      SurvivorsArePresentable(events);
    }
  }
}
