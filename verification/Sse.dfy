/** Reading and writing one event of an event stream, after section 9.2.6 of the WHATWG HTML standard. */
module Sse {
  import opened Options
  import opened ProtectedFields
  import opened Utf8

  const MAX_FRAME_BYTES: nat := 8_388_608

  /** The bytes of a frame, as the text they encode if they are valid UTF-8. */
  datatype Frame = Text(text: string) | NotUtf8

  datatype Decoded = Rejected | NoEvent | Decoded(event: Event)

  // ------------------------------------------------------------------------------------- Splitting and joining

  function Split(s: string, cuts: set<char>): (parts: seq<string>)
    ensures parts != []
  {
    if s == "" then [""]
    else if s[0] in cuts then [""] + Split(s[1..], cuts)
    else
      var rest := Split(s[1..], cuts);
      [[s[0]] + rest[0]] + rest[1..]
  }

  function Join(parts: seq<string>): string {
    if parts == [] then ""
    else if |parts| == 1 then parts[0]
    else parts[0] + "\n" + Join(parts[1..])
  }

  predicate Free(s: string, cuts: set<char>) {
    forall i :: 0 <= i < |s| ==> s[i] !in cuts
  }

  lemma {:induction false} SplitFree(s: string, cuts: set<char>)
    ensures forall p :: p in Split(s, cuts) ==> Free(p, cuts)
  {
    if s != "" {
      SplitFree(s[1..], cuts);
      var rest := Split(s[1..], cuts);
      assert rest[0] in rest;
      assert forall p :: p in rest[1..] ==> p in rest;
    }
  }

  lemma {:induction false} SplitWhole(s: string, cuts: set<char>)
    requires Free(s, cuts)
    ensures Split(s, cuts) == [s]
  {
    if s != "" {
      SplitWhole(s[1..], cuts);
      assert [s[0]] + s[1..] == s;
    }
  }

  /** A line that is ended by a cut comes first. */
  lemma {:induction false} SplitLine(line: string, cut: char, rest: string, cuts: set<char>)
    requires Free(line, cuts) && cut in cuts
    ensures Split(line + [cut] + rest, cuts) == [line] + Split(rest, cuts)
  {
    if line == "" {
      assert line + [cut] + rest == [cut] + rest;
    } else {
      assert (line + [cut] + rest)[1..] == line[1..] + [cut] + rest;
      SplitLine(line[1..], cut, rest, cuts);
      assert [line[0]] + line[1..] == line;
    }
  }

  lemma {:induction false} JoinSplit(s: string)
    ensures Join(Split(s, {'\n'})) == s
  {
    if s != "" {
      JoinSplit(s[1..]);
      var rest := Split(s[1..], {'\n'});
      if s[0] == '\n' {
        assert ([""] + rest)[1..] == rest;
      } else {
        JoinFirst(s[0], rest);
      }
      assert [s[0]] + s[1..] == s;
    }
  }

  lemma JoinFirst(c: char, parts: seq<string>)
    requires parts != []
    ensures Join([[c] + parts[0]] + parts[1..]) == [c] + Join(parts)
  {
    var longer := [[c] + parts[0]] + parts[1..];
    if |parts| > 1 {
      assert longer[1..] == parts[1..];
      assert [c] + parts[0] + "\n" + Join(parts[1..]) == [c] + (parts[0] + "\n" + Join(parts[1..]));
    }
  }

  // ------------------------------------------------------------------------------------------------- Reading

  /** The text before the first colon and after it; without a colon, all of it and nothing. */
  function SplitOnce(line: string): (string, string) {
    if line == "" then ("", "")
    else if line[0] == ':' then ("", line[1..])
    else
      var (field, value) := SplitOnce(line[1..]);
      ([line[0]] + field, value)
  }

  datatype Fields = Fields(event: Option<string>, id: Option<string>, data: seq<string>)

  function StripSpace(value: string): string {
    if value != "" && value[0] == ' ' then value[1..] else value
  }

  function ReadLine(f: Fields, line: string): Fields {
    if line == "" || line[0] == ':' then f
    else
      var (field, rest) := SplitOnce(line);
      var value := StripSpace(rest);
      if field == "event" then f.(event := Some(value))
      else if field == "id" then if '\0' in value then f else f.(id := Some(value))
      else if field == "data" then f.(data := f.data + [value])
      else f
  }

  function ReadLines(f: Fields, lines: seq<string>): Fields
    decreases |lines|
  {
    if lines == [] then f else ReadLines(ReadLine(f, lines[0]), lines[1..])
  }

  const NOTHING := Fields(None, None, [])

  function Read(text: string): Decoded {
    var f := ReadLines(NOTHING, Split(text, {'\r', '\n'}));
    if f.data == [] then NoEvent else Decoded(Event(f.event, f.id, Join(f.data)))
  }

  function Decode(frame: Frame): Decoded {
    if frame.NotUtf8? || Size(frame.text) > MAX_FRAME_BYTES then Rejected else Read(frame.text)
  }

  method DecodeEvent(frame: Frame) returns (decoded: Decoded)
    ensures decoded == Decode(frame)
  {
    if frame.NotUtf8? || Size(frame.text) > MAX_FRAME_BYTES {
      return Rejected;
    }
    var event, id, data := None, None, [];
    var lines := Split(frame.text, {'\r', '\n'});
    var i := 0;
    while i < |lines|
      invariant 0 <= i <= |lines|
      invariant ReadLines(Fields(event, id, data), lines[i..]) == ReadLines(NOTHING, lines)
    {
      var line := lines[i];
      assert lines[i..][1..] == lines[i + 1..];
      i := i + 1;
      if line == "" || line[0] == ':' {
        continue;
      }
      var (field, rest) := SplitOnce(line);
      var value := StripSpace(rest);
      if field == "event" {
        event := Some(value);
      } else if field == "id" && '\0' !in value {
        id := Some(value);
      } else if field == "data" {
        data := data + [value];
      }
    }
    decoded := if data == [] then NoEvent else Decoded(Event(event, id, Join(data)));
  }

  // ------------------------------------------------------------------------------------------------- Writing

  function FieldText(name: string, value: Option<string>): string {
    if value.Some? then name + ": " + value.value + "\n" else ""
  }

  function DataText(lines: seq<string>): string {
    if lines == [] then "\n" else "data: " + lines[0] + "\n" + DataText(lines[1..])
  }

  function Print(e: Event): string {
    FieldText("event", e.event) + FieldText("id", e.id) + DataText(Split(e.data, {'\n'}))
  }

  predicate Clean(value: Option<string>) {
    value.Some? ==> Free(value.value, {'\r', '\n', '\0'})
  }

  /** The text of an event, unless it cannot be written on lines or is too long. */
  function Encode(e: Event): Option<string> {
    if Clean(e.event) && Clean(e.id) && '\r' !in e.data && Size(Print(e)) <= MAX_FRAME_BYTES then Some(Print(e)) else None
  }

  method EncodeFields(e: Event) returns (encoded: Option<string>)
    ensures encoded == if Clean(e.event) && Clean(e.id) then Some(FieldText("event", e.event) + FieldText("id", e.id)) else None
  {
    var text := "";
    var fields := [("event", e.event), ("id", e.id)];
    var i := 0;
    while i < 2
      invariant 0 <= i <= 2
      invariant i > 0 ==> Clean(e.event)
      invariant i > 1 ==> Clean(e.id)
      invariant text == (if i > 0 then FieldText("event", e.event) else "") + if i > 1 then FieldText("id", e.id) else ""
    {
      var (name, value) := fields[i];
      if value.Some? {
        if '\r' in value.value || '\n' in value.value || '\0' in value.value {
          return None;
        }
        text := text + (name + ": " + value.value + "\n");
      }
      i := i + 1;
    }
    encoded := Some(text);
  }

  method EncodeData(head: string, data: string) returns (encoded: Option<string>)
    ensures encoded == if '\r' in data then None else Some(head + DataText(Split(data, {'\n'})))
  {
    hide Split, DataText;
    SplitChars(data, '\r');
    DataEnd();
    var text := head;
    var lines := Split(data, {'\n'});
    var k := 0;
    while k < |lines|
      invariant 0 <= k <= |lines|
      invariant forall p :: p in lines[..k] ==> '\r' !in p
      invariant text + DataText(lines[k..]) == head + DataText(lines)
    {
      if '\r' in lines[k] {
        assert lines[k] in lines;
        return None;
      }
      DataStep(lines, k);
      Regroup(text, "data: " + lines[k] + "\n", DataText(lines[k + 1..]));
      text := text + ("data: " + lines[k] + "\n");
      k := k + 1;
    }
    assert lines[..k] == lines && lines[k..] == [];
    encoded := Some(text + "\n");
  }

  lemma DataEnd()
    ensures DataText([]) == "\n"
  {
  }

  lemma Regroup(a: string, b: string, c: string)
    ensures a + b + c == a + (b + c)
  {
  }

  lemma DataStep(lines: seq<string>, k: nat)
    requires k < |lines|
    ensures DataText(lines[k..]) == "data: " + lines[k] + "\n" + DataText(lines[k + 1..])
    ensures lines[..k + 1] == lines[..k] + [lines[k]]
  {
    assert lines[k..][1..] == lines[k + 1..];
  }

  method EncodeEvent(e: Event) returns (encoded: Option<string>)
    ensures encoded == Encode(e)
  {
    hide Size, Split, DataText, FieldText, Clean;
    encoded := EncodeFields(e);
    if encoded.Some? {
      encoded := EncodeData(encoded.value, e.data);
    }
    if encoded.Some? && Size(encoded.value) > MAX_FRAME_BYTES {
      encoded := None;
    }
  }

  /** A character other than the cut is in the text exactly if it is in one of its lines. */
  lemma {:induction false} SplitChars(s: string, c: char)
    requires c != '\n'
    ensures c !in s <==> forall p :: p in Split(s, {'\n'}) ==> c !in p
  {
    if s != "" {
      SplitChars(s[1..], c);
      var rest := Split(s[1..], {'\n'});
      var parts := Split(s, {'\n'});
      assert s == [s[0]] + s[1..];
      if s[0] == '\n' {
        assert parts == [""] + rest;
      } else {
        var first := [s[0]] + rest[0];
        assert parts == [first] + rest[1..] && rest == [rest[0]] + rest[1..];
        assert c in first <==> c == s[0] || c in rest[0];
      }
    }
  }

  // --------------------------------------------------------------------------------------------- Round trips

  lemma {:induction false} SplitOnceAt(field: string, value: string)
    requires ':' !in field
    ensures SplitOnce(field + ":" + value) == (field, value)
  {
    if field == "" {
      assert field + ":" + value == ":" + value;
    } else {
      assert (field + ":" + value)[1..] == field[1..] + ":" + value;
      SplitOnceAt(field[1..], value);
      assert [field[0]] + field[1..] == field && field[0] in field;
    }
  }

  /** A printed field is read back with its value as it was, leading spaces included. */
  lemma ReadField(f: Fields, name: string, value: string)
    requires name in {"event", "id", "data"}
    ensures ReadLine(f, name + ": " + value) ==
            if name == "event" then f.(event := Some(value))
            else if name == "id" then if '\0' in value then f else f.(id := Some(value))
            else f.(data := f.data + [value])
  {
    var line := name + ": " + value;
    assert line == name + ":" + (" " + value);
    SplitOnceAt(name, " " + value);
    assert StripSpace(" " + value) == value;
  }

  lemma ReadPrintedField(f: Fields, name: string, value: Option<string>, rest: string)
    requires name in {"event", "id"} && Clean(value)
    ensures ReadLines(f, Split(FieldText(name, value) + rest, {'\r', '\n'})) ==
            ReadLines(if value.None? then f else if name == "event" then f.(event := value) else f.(id := value),
                      Split(rest, {'\r', '\n'}))
  {
    if value.Some? {
      var line := name + ": " + value.value;
      assert FieldText(name, value) + rest == line + ['\n'] + rest;
      SplitLine(line, '\n', rest, {'\r', '\n'});
      ReadField(f, name, value.value);
      assert ([line] + Split(rest, {'\r', '\n'}))[1..] == Split(rest, {'\r', '\n'});
    } else {
      assert FieldText(name, value) + rest == rest;
    }
  }

  lemma {:induction false} ReadPrintedData(f: Fields, lines: seq<string>)
    requires forall l :: l in lines ==> Free(l, {'\r', '\n'})
    ensures ReadLines(f, Split(DataText(lines), {'\r', '\n'})) == f.(data := f.data + lines)
    decreases |lines|
  {
    var cuts := {'\r', '\n'};
    if lines == [] {
      assert "\n" == "" + ['\n'] + "";
      SplitLine("", '\n', "", cuts);
      assert Split("\n", cuts) == ["", ""];
      assert ["", ""][1..] == [""] && [""][1..] == [];
      assert f.data + lines == f.data;
    } else {
      var line := "data: " + lines[0];
      var rest := DataText(lines[1..]);
      assert DataText(lines) == line + ['\n'] + rest;
      assert lines[0] in lines;
      SplitLine(line, '\n', rest, cuts);
      assert line == "data" + ": " + lines[0];
      ReadField(f, "data", lines[0]);
      assert ([line] + Split(rest, cuts))[1..] == Split(rest, cuts);
      ReadPrintedData(f.(data := f.data + [lines[0]]), lines[1..]);
      assert f.data + [lines[0]] + lines[1..] == f.data + lines;
    }
  }

  /** Whatever is written can be read, and reads as the event that was written. */
  lemma DecodeEncode(e: Event)
    requires Encode(e).Some?
    ensures Decode(Frame.Text(Encode(e).value)) == Decoded(e)
  {
    hide Size, Split, ReadLines, DataText, FieldText, Join;
    var lines := Split(e.data, {'\n'});
    var data := DataText(lines);
    var cuts := {'\r', '\n'};
    var f := NOTHING.(event := e.event);
    assert Print(e) == FieldText("event", e.event) + (FieldText("id", e.id) + data);
    ReadPrintedField(NOTHING, "event", e.event, FieldText("id", e.id) + data);
    assert (if e.event.None? then NOTHING else NOTHING.(event := e.event)) == f;
    ReadPrintedField(f, "id", e.id, data);
    SplitFree(e.data, {'\n'});
    SplitChars(e.data, '\r');
    forall l | l in lines
      ensures Free(l, cuts)
    {
      assert forall i :: 0 <= i < |l| ==> l[i] in l && l[i] !in {'\n'};
    }
    ReadPrintedData(f.(id := e.id), lines);
    assert [] + lines == lines;
    JoinSplit(e.data);
  }

  lemma {:induction false} SplitOnceFree(line: string, cuts: set<char>)
    requires Free(line, cuts)
    ensures Free(SplitOnce(line).1, cuts)
  {
    if line != "" {
      SplitOnceFree(line[1..], cuts);
    }
  }

  /** What reading lines can leave behind. */
  predicate OnLines(f: Fields) {
    && (f.event.Some? ==> Free(f.event.value, {'\r', '\n'}))
    && Clean(f.id)
    && forall d :: d in f.data ==> Free(d, {'\r', '\n'})
  }

  lemma {:induction false} ReadOnLines(f: Fields, lines: seq<string>)
    requires OnLines(f) && forall l :: l in lines ==> Free(l, {'\r', '\n'})
    ensures OnLines(ReadLines(f, lines))
    decreases |lines|
  {
    if lines != [] {
      var line := lines[0];
      assert line in lines;
      SplitOnceFree(line, {'\r', '\n'});
      ReadOnLines(ReadLine(f, line), lines[1..]);
    }
  }

  lemma {:induction false} JoinFree(parts: seq<string>)
    requires forall p :: p in parts ==> Free(p, {'\r', '\n'})
    ensures '\r' !in Join(parts)
  {
    if parts != [] {
      assert parts[0] in parts;
      JoinFree(parts[1..]);
    }
  }

  /**
    An event that was read can be written again exactly if its name holds no NUL and the text is not too long; then
    reading it once more gives the same event.
   */
  lemma Reencode(frame: Frame)
    requires Decode(frame).Decoded?
    ensures var e := Decode(frame).event;
            && (Encode(e).Some? <==>
                  (e.event.Some? ==> '\0' !in e.event.value) && Size(Print(e)) <= MAX_FRAME_BYTES)
            && (Encode(e).Some? ==> Decode(Frame.Text(Encode(e).value)) == Decode(frame))
  {
    hide Size, Split, ReadLines, Join, Print;
    var lines := Split(frame.text, {'\r', '\n'});
    var f := ReadLines(NOTHING, lines);
    SplitFree(frame.text, {'\r', '\n'});
    ReadOnLines(NOTHING, lines);
    JoinFree(f.data);
    var e := Decode(frame).event;
    if Encode(e).Some? {
      DecodeEncode(e);
    }
    assert e.event.Some? && '\0' !in e.event.value ==> Clean(e.event);
  }

  // --------------------------------------------------------------------------------- Frames of other writers

  const CUTS := {'\r', '\n'}

  /** A line counts on its own, whichever way it ends. */
  lemma LineByLine(f: Fields, line: string, cut: char, rest: string)
    requires Free(line, CUTS) && cut in CUTS
    ensures ReadLines(f, Split(line + [cut] + rest, CUTS)) == ReadLines(ReadLine(f, line), Split(rest, CUTS))
  {
    SplitLine(line, cut, rest, CUTS);
    hide Split, ReadLine;
    assert ([line] + Split(rest, CUTS))[1..] == Split(rest, CUTS);
  }

  /** The line sets a field: its name, a colon, an optional space, and the value. */
  predicate Sets(line: string, name: string, value: string) {
    line == name + ": " + value || (line == name + ":" + value && (value == "" || value[0] != ' '))
  }

  /** The field with that name is set, and nothing else. */
  function Set(f: Fields, name: string, value: string): Fields
    requires name in {"event", "id", "data"}
  {
    if name == "event" then f.(event := Some(value))
    else if name == "id" then (if '\0' in value then f else f.(id := Some(value)))
    else f.(data := f.data + [value])
  }

  lemma SettingLine(f: Fields, name: string, value: string, line: string)
    requires name in {"event", "id", "data"} && Sets(line, name, value)
    ensures ReadLine(f, line) == Set(f, name, value)
  {
    if line == name + ": " + value {
      ReadField(f, name, value);
    } else {
      SplitOnceAt(name, value);
    }
  }

  /** A line that is empty, a comment, or of another name, with a colon or without. */
  predicate Ignored(line: string) {
    || line == "" || line[0] == ':'
    || (':' !in line && line !in {"event", "id", "data"})
    || (exists k :: 0 < k < |line| && line[k] == ':' && ':' !in line[..k] && line[..k] !in {"event", "id", "data"})
  }

  lemma {:induction false} NoColon(line: string)
    requires ':' !in line
    ensures SplitOnce(line) == (line, "")
  {
    if line != "" {
      NoColon(line[1..]);
      assert [line[0]] + line[1..] == line && line[0] in line;
    }
  }

  /** Such a line changes nothing, wherever in the frame it stands. */
  lemma IgnoredLine(f: Fields, line: string)
    requires Ignored(line)
    ensures ReadLine(f, line) == f
  {
    if line != "" && line[0] != ':' {
      if ':' !in line {
        NoColon(line);
      } else {
        var k :| 0 < k < |line| && line[k] == ':' && ':' !in line[..k] && line[..k] !in {"event", "id", "data"};
        assert line == line[..k] + ":" + line[k + 1..];
        SplitOnceAt(line[..k], line[k + 1..]);
      }
    }
  }

  lemma IgnoredFirst(line: string, cut: char, rest: string)
    requires Free(line, CUTS) && cut in CUTS && Ignored(line)
    ensures Read(line + [cut] + rest) == Read(rest)
  {
    LineByLine(NOTHING, line, cut, rest);
    IgnoredLine(NOTHING, line);
  }

  /**
    An event is read from its lines however they are written: with the space after the colon or without, ended by a
    line feed or a carriage return.  Only a space is stripped, and only one.
   */
  lemma FieldsRead(name: string, id: string, data: string, l1: string, l2: string, l3: string, c1: char, c2: char, c3: char)
    requires Sets(l1, "event", name) && Sets(l2, "id", id) && Sets(l3, "data", data)
    requires Free(l1, CUTS) && Free(l2, CUTS) && Free(l3, CUTS) && c1 in CUTS && c2 in CUTS && c3 in CUTS
    requires '\0' !in id
    ensures var text := l1 + [c1] + (l2 + [c2] + (l3 + [c3] + "\n"));
            Decode(Text(text)) == if Size(text) > 8_388_608 then Rejected else Decoded(Event(Some(name), Some(id), data))
  {
    hide Split, ReadLine, Sets, Join;
    var f1 := NOTHING.(event := Some(name));
    var f2 := f1.(id := Some(id));
    SettingLine(NOTHING, "event", name, l1);
    SettingLine(f1, "id", id, l2);
    SettingLine(f2, "data", data, l3);
    LineByLine(NOTHING, l1, c1, l2 + [c2] + (l3 + [c3] + "\n"));
    LineByLine(f1, l2, c2, l3 + [c3] + "\n");
    LineByLine(f2, l3, c3, "\n");
    assert f2.data + [data] == [data];
    LastLine(f2.(data := [data]));
    JoinOne(data);
  }

  lemma LastLine(f: Fields)
    ensures ReadLines(f, Split("\n", CUTS)) == f
  {
    assert "\n" == "" + ['\n'] + "";
    SplitLine("", '\n', "", CUTS);
    assert Split("\n", CUTS) == ["", ""];
    assert ["", ""][1..] == [""] && [""][1..] == [];
  }

  lemma JoinOne(data: string)
    ensures Join([data]) == data
  {
  }

  /** A frame of one data line is an event without name or id. */
  lemma DataRead(data: string, line: string, cut: char)
    requires Sets(line, "data", data) && Free(line, CUTS) && cut in CUTS
    ensures var text := line + [cut] + "\n";
            Decode(Text(text)) == if Size(text) > 8_388_608 then Rejected else Decoded(Event(None, None, data))
  {
    hide Split, ReadLine, Sets, Join;
    SettingLine(NOTHING, "data", data, line);
    LineByLine(NOTHING, line, cut, "\n");
    assert NOTHING.data + [data] == [data];
    LastLine(NOTHING.(data := [data]));
    JoinOne(data);
  }
}
