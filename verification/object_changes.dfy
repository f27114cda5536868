/**
 * The two line grammars of the last-sync-resources annotation, `Kind|Name|Type|f1,f2` and `Kind/Name=Type:f1,f2`,
 * and the proof that whatever is written in them, padded and mixed with blank lines, is read back unchanged.
 */
module ObjectChanges {
  import opened Model
  import opened Text

  // ----- one line -----

  const NO_CHANGE := ObjectChange("", "", "", [])

  function FieldsOf(text: string): seq<string>
  {
    if text == "" then [] else Split(text, ',')
  }

  /** A line that fits neither grammar leaves kind or name empty, and so is dropped by `ParseLine`. */
  function ReadLine(line: string): ObjectChange
  {
    if '|' in line then
      var parts := Split(line, '|');
      if |parts| >= 3 then ObjectChange(parts[0], parts[1], parts[2], FieldsOf(if |parts| >= 4 then parts[3] else ""))
      else NO_CHANGE
    else if '=' in line && '/' in line then
      var (left, right) := Cut(line, '=');
      var (changeType, fields) := if ':' in right then Cut(right, ':') else (right, "");
      if '/' in left then
        var (kind, name) := Cut(left, '/');
        ObjectChange(kind, name, changeType, FieldsOf(fields))
      else ObjectChange("", "", changeType, FieldsOf(fields))
    else NO_CHANGE
  }

  function ParseLine(raw: string): seq<ObjectChange>
  {
    var oc := ReadLine(TrimSpace(raw));
    if TrimSpace(raw) == "" || oc.kind == "" || oc.name == "" then [] else [oc]
  }

  function Parse(raw: string): seq<ObjectChange>
  {
    if raw == "" then [] else FlatMap(ParseLine, Split(TrimSpace(raw), '\n'))
  }

  // ----- the outer trim makes no difference -----

  lemma {:induction false} LeadingSpace(c: char, s: string)
    requires IsSpace(c)
    ensures FlatMap(ParseLine, Split([c] + s, '\n')) == FlatMap(ParseLine, Split(s, '\n'))
  {
    SplitFirst(c, s, '\n');
    var lines := Split(s, '\n');
    if c == '\n' {
      assert ([""] + lines)[1..] == lines;
      TrimNothing();
    } else {
      TrimLead(c, lines[0]);
      assert ([[c] + lines[0]] + lines[1..])[1..] == lines[1..];
    }
  }

  /** For any way of reading lines that ignores a trailing `c` and blank lines. */
  lemma {:induction false} TrailingIdle<T>(f: string -> seq<T>, s: string, c: char)
    requires f("") == [] && forall line :: f(line + [c]) == f(line)
    ensures FlatMap(f, Split(s + [c], '\n')) == FlatMap(f, Split(s, '\n'))
  {
    SplitLast(s, c, '\n');
    var lines := Split(s, '\n');
    var front, last := lines[..|lines| - 1], lines[|lines| - 1];
    if c == '\n' {
      FlatMapConcat(f, lines, [""]);
      FlatMapOne(f, "");
    } else {
      FlatMapConcat(f, front, [last]);
      FlatMapConcat(f, front, [last + [c]]);
      FlatMapOne(f, last);
      FlatMapOne(f, last + [c]);
      assert lines == front + [last];
    }
  }

  lemma {:induction false} TrailingSpace(s: string, c: char)
    requires IsSpace(c)
    ensures FlatMap(ParseLine, Split(s + [c], '\n')) == FlatMap(ParseLine, Split(s, '\n'))
  {
    TrimNothing();
    forall line ensures ParseLine(line + [c]) == ParseLine(line) {
      TrimTrail(line, c);
    }
    TrailingIdle(ParseLine, s, c);
  }

  lemma {:induction false} LeftTrimIdle(s: string)
    ensures FlatMap(ParseLine, Split(TrimLeft(s), '\n')) == FlatMap(ParseLine, Split(s, '\n'))
  {
    if s != "" && IsSpace(s[0]) {
      assert s == [s[0]] + s[1..];
      LeadingSpace(s[0], s[1..]);
      LeftTrimIdle(s[1..]);
    }
  }

  lemma {:induction false} RightTrimIdle(s: string)
    ensures FlatMap(ParseLine, Split(TrimRight(s), '\n')) == FlatMap(ParseLine, Split(s, '\n'))
  {
    if s != "" && IsSpace(s[|s| - 1]) {
      var n := |s| - 1;
      assert s == s[..n] + [s[n]];
      TrailingSpace(s[..n], s[n]);
      RightTrimIdle(s[..n]);
    }
  }

  /** Trimming the annotation before it is split into lines never changes what is read. */
  lemma {:induction false} OuterTrimIdle(raw: string)
    ensures Parse(raw) == FlatMap(ParseLine, Split(raw, '\n'))
  {
    LeftTrimIdle(raw);
    RightTrimIdle(TrimLeft(raw));
    if raw == "" {
      TrimNothing();
      assert Split(raw, '\n')[1..] == [];
    }
  }

  // ----- writing -----

  /** The ways to write a line: blank, or a change in one of the grammars, with padding on both sides. */
  datatype Body = Blank | Barred(oc: ObjectChange) | Slashed(oc: ObjectChange)

  datatype Line = Line(lead: string, body: Body, trail: string)

  function RenderBarred(kind: string, name: string, changeType: string, fields: seq<string>): string
  {
    if fields == [] then kind + "|" + name + "|" + changeType
    else kind + "|" + name + "|" + changeType + "|" + Join(fields, ',')
  }

  function RenderSlashed(kind: string, name: string, changeType: string, fields: seq<string>): string
  {
    if fields == [] then kind + "/" + name + "=" + changeType
    else kind + "/" + name + "=" + changeType + ":" + Join(fields, ',')
  }

  function Render(body: Body): string
  {
    match body
    case Blank => ""
    case Barred(oc) => RenderBarred(oc.kind, oc.name, oc.changeType, oc.changedFields)
    case Slashed(oc) => RenderSlashed(oc.kind, oc.name, oc.changeType, oc.changedFields)
  }

  function RenderLine(l: Line): string { l.lead + Render(l.body) + l.trail }

  function RenderAll(ls: seq<Line>): (r: seq<string>)
    ensures |r| == |ls|
    ensures forall i :: 0 <= i < |ls| ==> r[i] == RenderLine(ls[i])
  {
    seq(|ls|, i requires 0 <= i < |ls| => RenderLine(ls[i]))
  }

  predicate Padding(s: string)
  {
    forall c :: c in s ==> IsSpace(c) && c != '\n'
  }

  /** Fields are separated by commas, so they hold none; a single empty field cannot be told from no field at all. */
  predicate FieldsClean(fs: seq<string>)
  {
    fs != [""] && forall i :: 0 <= i < |fs| ==> ',' !in fs[i]
  }

  /** The text is not empty and would not be trimmed. */
  predicate Tight(s: string)
  {
    s != "" && !IsSpace(s[0]) && !IsSpace(s[|s| - 1])
  }

  /** What a line may hold. Each grammar excludes its own delimiters only where they would be misread. */
  predicate Clean(body: Body)
  {
    match body
    case Blank => true
    case Barred(oc) =>
      && oc.kind != "" && oc.name != "" && FieldsClean(oc.changedFields)
      && Tight(Render(body)) && '\n' !in Render(body)
      && '|' !in oc.kind && '|' !in oc.name && '|' !in oc.changeType && '|' !in Join(oc.changedFields, ',')
    case Slashed(oc) =>
      && oc.kind != "" && oc.name != "" && FieldsClean(oc.changedFields)
      && Tight(Render(body)) && '\n' !in Render(body) && '|' !in Render(body)
      && '/' !in oc.kind && '=' !in oc.kind && '=' !in oc.name && ':' !in oc.changeType
  }

  function Written(ls: seq<Line>): seq<ObjectChange>
  {
    if ls == [] then [] else (if ls[0].body.Blank? then [] else [ls[0].body.oc]) + Written(ls[1..])
  }

  // ----- reading back -----

  lemma {:induction false} FieldsRoundTrip(fs: seq<string>)
    requires FieldsClean(fs)
    ensures FieldsOf(if fs == [] then "" else Join(fs, ',')) == fs
    ensures fs != [] ==> Join(fs, ',') != ""
  {
    if fs != [] {
      SplitJoin(fs, ',');
      assert Split("", ',') == [""];
    }
  }

  lemma {:induction false} ReadBarred(kind: string, name: string, changeType: string, fields: string)
    requires '|' !in kind && '|' !in name && '|' !in changeType && '|' !in fields
    ensures ReadLine(kind + "|" + name + "|" + changeType) == ObjectChange(kind, name, changeType, [])
    ensures ReadLine(kind + "|" + name + "|" + changeType + "|" + fields) == ObjectChange(kind, name, changeType,
            FieldsOf(fields))
  {
    SplitJoin([kind, name, changeType], '|');
    SplitJoin([kind, name, changeType, fields], '|');
    JoinFour(kind, name, changeType, fields, '|');
    assert (kind + "|" + name + "|" + changeType)[|kind|] == '|';
    assert (kind + "|" + name + "|" + changeType + "|" + fields)[|kind|] == '|';
  }

  lemma {:induction false} BarredRoundTrip(oc: ObjectChange)
    requires Clean(Barred(oc))
    ensures ReadLine(Render(Barred(oc))) == oc
  {
    FieldsRoundTrip(oc.changedFields);
    ReadBarred(oc.kind, oc.name, oc.changeType, Join(oc.changedFields, ','));
  }

  lemma {:induction false} ReadSlashed(kind: string, name: string, right: string)
    requires var line := kind + "/" + name + "=" + right; '|' !in line
    requires '/' !in kind && '=' !in kind && '=' !in name
    ensures var (changeType, fields) := if ':' in right then Cut(right, ':') else (right, "");
            ReadLine(kind + "/" + name + "=" + right) == ObjectChange(kind, name, changeType, FieldsOf(fields))
  {
    var left := kind + "/" + name;
    var line := kind + "/" + name + "=" + right;
    assert line == left + ['='] + right;
    assert line[|left|] == '=' && line[|kind|] == '/' && left[|kind|] == '/';
    CutAt(left, right, '=');
    CutAt(kind, name, '/');
    assert left == kind + ['/'] + name;
  }

  lemma {:induction false} ReadSlashedFields(kind: string, name: string, changeType: string, fields: string)
    requires '|' !in kind + "/" + name + "=" + changeType + ":" + fields
    requires '/' !in kind && '=' !in kind && '=' !in name && ':' !in changeType
    ensures ReadLine(kind + "/" + name + "=" + changeType + ":" + fields) == ObjectChange(kind, name, changeType,
            FieldsOf(fields))
  {
    var right := changeType + ":" + fields;
    CutAt(changeType, fields, ':');
    assert right == changeType + [':'] + fields;
    assert kind + "/" + name + "=" + changeType + ":" + fields == kind + "/" + name + "=" + right;
    ReadSlashed(kind, name, right);
  }

  lemma {:induction false} SlashedRoundTrip(oc: ObjectChange)
    requires Clean(Slashed(oc))
    ensures ReadLine(Render(Slashed(oc))) == oc
  {
    FieldsRoundTrip(oc.changedFields);
    if oc.changedFields == [] {
      ReadSlashed(oc.kind, oc.name, oc.changeType);
    } else {
      ReadSlashedFields(oc.kind, oc.name, oc.changeType, Join(oc.changedFields, ','));
    }
  }

  lemma {:induction false} LineRoundTrip(l: Line)
    requires Padding(l.lead) && Padding(l.trail) && Clean(l.body)
    ensures ParseLine(RenderLine(l)) == if l.body.Blank? then [] else [l.body.oc]
    ensures '\n' !in RenderLine(l)
  {
    if l.body.Blank? {
      assert RenderLine(l) == l.lead + l.trail;
      TrimAllSpace(l.lead + l.trail);
    } else {
      TrimPadded(l.lead, Render(l.body), l.trail);
      if l.body.Barred? {
        BarredRoundTrip(l.body.oc);
      } else {
        SlashedRoundTrip(l.body.oc);
      }
    }
  }

  lemma {:induction false} LinesRoundTrip(ls: seq<Line>)
    requires forall i :: 0 <= i < |ls| ==> Padding(ls[i].lead) && Padding(ls[i].trail) && Clean(ls[i].body)
    ensures FlatMap(ParseLine, RenderAll(ls)) == Written(ls)
  {
    if ls != [] {
      LineRoundTrip(ls[0]);
      assert RenderAll(ls)[1..] == RenderAll(ls[1..]);
      LinesRoundTrip(ls[1..]);
    }
  }

  /** Any mixture of the two grammars and blank lines, padded at will, is read back as the changes written, in order. */
  lemma {:induction false} RoundTrip(ls: seq<Line>)
    requires forall i :: 0 <= i < |ls| ==> Padding(ls[i].lead) && Padding(ls[i].trail) && Clean(ls[i].body)
    ensures Parse(Join(RenderAll(ls), '\n')) == Written(ls)
  {
    var raw := Join(RenderAll(ls), '\n');
    OuterTrimIdle(raw);
    LinesRoundTrip(ls);
    if ls != [] {
      forall i | 0 <= i < |ls| ensures '\n' !in RenderAll(ls)[i] {
        LineRoundTrip(ls[i]);
      }
      SplitJoin(RenderAll(ls), '\n');
    } else {
      assert FlatMap(ParseLine, Split("", '\n')) == [] by {
        TrimNothing();
        assert Split("", '\n')[1..] == [];
      }
    }
  }

  // ----- the parser -----

  /** One line, already trimmed and not empty. */
  method ScanLine(line: string) returns (kind: string, name: string, changeType: string, fieldsStr: string)
    ensures ReadLine(line) == ObjectChange(kind, name, changeType, FieldsOf(fieldsStr))
  {
    kind, name, changeType, fieldsStr := "", "", "", "";
    if '|' in line {
      var parts := Split(line, '|');
      if |parts| >= 3 {
        kind, name, changeType := parts[0], parts[1], parts[2];
        if |parts| >= 4 {
          fieldsStr := parts[3];
        }
      }
    } else if '=' in line && '/' in line {
      var eqParts := Cut(line, '=');
      if '/' in eqParts.0 {
        var knParts := Cut(eqParts.0, '/');
        kind, name := knParts.0, knParts.1;
      }
      changeType := eqParts.1;
      if ':' in eqParts.1 {
        var ctParts := Cut(eqParts.1, ':');
        changeType, fieldsStr := ctParts.0, ctParts.1;
      }
    }
  }

  /** One round of the line loop. */
  method AppendLine(raw: string, before: seq<ObjectChange>) returns (results: seq<ObjectChange>)
    ensures results == before + ParseLine(raw)
  {
    results := before;
    var line := TrimSpace(raw);
    if line != "" {
      var kind, name, changeType, fieldsStr := ScanLine(line);
      if kind != "" && name != "" {
        results := results + [ObjectChange(kind, name, changeType, FieldsOf(fieldsStr))];
      }
    }
  }

  method ReadLines(lines: seq<string>) returns (results: seq<ObjectChange>)
    ensures results == FlatMap(ParseLine, lines)
  {
    results := [];
    for i := 0 to |lines|
      invariant results == FlatMap(ParseLine, lines[..i])
    {
      FlatMapNext(ParseLine, lines, i);
      results := AppendLine(lines[i], results);
    }
    assert lines[..|lines|] == lines;
  }

  method ObjectChangesFromAnnotation(raw: string) returns (results: seq<ObjectChange>)
    ensures results == Parse(raw)
  {
    results := [];
    if raw != "" {
      results := ReadLines(Split(TrimSpace(raw), '\n'));
    }
  }
}
