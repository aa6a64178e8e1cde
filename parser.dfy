/** `_parse_interfaces`: the line-by-line reader of an interfaces file. */
module Parser {
  import opened Outcomes
  import opened Text
  import opened Assoc
  import opened Documents

  /** `_INDENT`, put in front of every option line. */
  const Indent: string := "  "

  /** `line.startswith(_OPENING_STANZAS)`: a plain prefix test, so a line such as
      `autoconf 1` opens a stanza of kind `autoconf`. */
  predicate IsOpener(line: string) {
    StartsWith(line, "iface") || StartsWith(line, "mapping") || StartsWith(line, "auto") || StartsWith(line, "allow-")
  }

  /** A stripped line that is neither blank nor a comment. */
  predicate Significant(line: string) {
    line != "" && line[0] != '#'
  }

  /** The key of a non-`auto` block, from the opener's tokens: every token after the
      kind for `mapping`, the second token otherwise. */
  function KeyOf(parts: seq<string>): string
    requires |parts| >= 2
  {
    if parts[0] == "mapping" then Join(parts[1..], " ") else parts[1]
  }

  /** The parser's position: the document so far and the block the current-block variable `p`
      designates, as (kind, key), if any. */
  datatype State = State(doc: Document, open: Option<(string, string)>)

  const Start: State := State(Empty, None)

  /** `p.append(line)`: one more line at the end of block (kind, key). */
  function AppendLine(stanzas: Table<Blocks>, kind: string, key: string, line: string): Table<Blocks> {
    PutBlock(stanzas, kind, key, BlockOf(stanzas, kind, key).GetOr([]) + [line])
  }

  /** One line of the file. */
  function Step(st: State, raw: string): Result<State> {
    var line := Strip(raw);
    if !Significant(line) then Ok(st)
    else if IsOpener(line) then
      var parts := Split(line, ' ');
      if parts[0] == "auto" then
        Ok(State(st.doc.(auto := st.doc.auto + parts[1..]), None))
      else if |parts| < 2 then
        Err(MissingToken(line))
      else
        var key := KeyOf(parts);
        Ok(State(st.doc.(stanzas := PutBlock(st.doc.stanzas, parts[0], key, [line])), Some((parts[0], key))))
    else
      match st.open
      case None => Err(NotInStanza)
      case Some(at) => Ok(State(st.doc.(stanzas := AppendLine(st.doc.stanzas, at.0, at.1, Indent + line)), st.open))
  }

  /** The lines from the given position on; the first failing line stops the parse. */
  function Run(st: State, lines: seq<string>): Result<State>
    decreases |lines|
  {
    if lines == [] then Ok(st)
    else
      match Step(st, lines[0])
      case Err(e) => Err(e)
      case Ok(next) => Run(next, lines[1..])
  }

  /** A run from line `i` on is the step on that line followed by the rest. */
  lemma RunAt(st: State, lines: seq<string>, i: nat)
    requires i < |lines|
    ensures Run(st, lines[i..]) == match Step(st, lines[i]) { case Err(e) => Err(e) case Ok(next) => Run(next, lines[i + 1..]) }
  {
    assert lines[i..][0] == lines[i] && lines[i..][1..] == lines[i + 1..];
  }

  /** The document a file's contents parse to. The file is read as the pieces between
      newlines: Python's line iterator keeps each newline, but `strip()` removes it
      and the piece after a final newline is blank, so both give the same lines. */
  function Parse(contents: string): Result<Document> {
    match Run(Start, Split(contents, '\n'))
    case Err(e) => Err(e)
    case Ok(st) => Ok(st.doc)
  }

  /** `_parse_interfaces` on an existing file: the loop over its lines. */
  method ParseContents(contents: string) returns (r: Result<Document>)
    ensures r == Parse(contents)
  {
    var run := ParseLines(Split(contents, '\n'));
    r := if run.Err? then Err(run.error) else Ok(run.value.doc);
  }

  /** The loop of `_parse_interfaces` over the lines it reads. */
  method ParseLines(lines: seq<string>) returns (r: Result<State>)
    ensures r == Run(Start, lines)
  {
    var auto: seq<string> := [];
    var stanzas: Table<Blocks> := [];
    var p: Option<(string, string)> := None;
    var i := 0;
    while i < |lines|
      invariant 0 <= i <= |lines|
      invariant Run(State(Document(auto, stanzas), p), lines[i..]) == Run(Start, lines)
    {
      RunAt(State(Document(auto, stanzas), p), lines, i);
      var next := ParseLine(auto, stanzas, p, lines[i]);
      if next.Err? {
        return Err(next.error);
      }
      auto, stanzas, p := next.value.doc.auto, next.value.doc.stanzas, next.value.open;
      i := i + 1;
    }
    r := Ok(State(Document(auto, stanzas), p));
  }

  /** One pass of that loop: the line is stripped, blank lines and comments are
      skipped, an opener starts a block and any other line is appended to the open
      one. */
  method ParseLine(auto: seq<string>, stanzas: Table<Blocks>, p: Option<(string, string)>, raw: string)
    returns (r: Result<State>)
    ensures r == Step(State(Document(auto, stanzas), p), raw)
  {
    var line := Strip(raw);
    if line == "" || line[0] == '#' {
      return Ok(State(Document(auto, stanzas), p));
    }
    if !IsOpener(line) {
      if p.None? {
        return Err(NotInStanza);
      }
      return Ok(State(Document(auto, AppendLine(stanzas, p.value.0, p.value.1, Indent + line)), p));
    }
    var parts := Split(line, ' ');
    var s := stanzas;
    if parts[0] != "auto" && parts[0] !in Keys(s) {
      s := s + [(parts[0], [])];
    }
    if parts[0] == "auto" {
      return Ok(State(Document(auto + parts[1..], s), None));
    }
    if |parts| < 2 {
      return Err(MissingToken(line));
    }
    var key := parts[1];
    if parts[0] == "mapping" {
      key := Join(parts[1..], " ");
    }
    s := PutBlock(s, parts[0], key, []);
    s := AppendLine(s, parts[0], key, line);
    OpenBlock(stanzas, parts[0], key, line);
    return Ok(State(Document(auto, s), Some((parts[0], key))));
  }

  /** The source opens a block in three assignments: the kind's empty table when the
      kind is new, an empty block, then the opener appended to it. Together they
      assign the one-line block. */
  lemma OpenBlock(stanzas: Table<Blocks>, kind: string, key: string, line: string)
    ensures var s1 := if kind !in Keys(stanzas) then stanzas + [(kind, [])] else stanzas;
      AppendLine(PutBlock(s1, kind, key, []), kind, key, line) == PutBlock(stanzas, kind, key, [line])
  {
    var s1 := if kind !in Keys(stanzas) then stanzas + [(kind, [])] else stanzas;
    if kind !in Keys(stanzas) {
      PutBlockAfterNewKind(stanzas, kind, key, []);
    }
    var x := PutBlock(stanzas, kind, key, []);
    assert PutBlock(s1, kind, key, []) == x;
    BlockOfPutBlock(stanzas, kind, key, [], kind, key);
    assert BlockOf(x, kind, key).GetOr([]) + [line] == [line];
    PutBlockTwice(stanzas, kind, key, [], [line]);
  }

  // ---------------------------------------------------------------------------
  // Composition of runs

  lemma {:induction false} RunAppend(st: State, a: seq<string>, b: seq<string>)
    ensures Run(st, a + b) == match Run(st, a) { case Ok(s) => Run(s, b) case Err(e) => Err(e) }
    decreases |a|
  {
    if a == [] {
      assert a + b == b;
    } else {
      assert (a + b)[1..] == a[1..] + b;
      match Step(st, a[0])
      case Err(e) =>
      case Ok(next) => RunAppend(next, a[1..], b);
    }
  }

  // ---------------------------------------------------------------------------
  // The auto list

  /** The names all `auto` lines contribute, in file order. */
  function AutoTokens(lines: seq<string>): seq<string>
    decreases |lines|
  {
    if lines == [] then [] else LineAuto(lines[0]) + AutoTokens(lines[1..])
  }

  /** The names one line contributes: the tokens after `auto` on an `auto` line,
      none on any other line. */
  function LineAuto(raw: string): seq<string> {
    var line := Strip(raw);
    if Significant(line) && IsOpener(line) && Split(line, ' ')[0] == "auto" then Split(line, ' ')[1..] else []
  }

  lemma StepAuto(st: State, raw: string)
    requires Step(st, raw).Ok?
    ensures Step(st, raw).value.doc.auto == st.doc.auto + LineAuto(raw)
  {
  }

  /** The `auto` list of a successful parse holds the tokens of all `auto` lines, in
      file order, after whatever it held before. */
  lemma {:induction false} RunAuto(st: State, lines: seq<string>)
    requires Run(st, lines).Ok?
    ensures Run(st, lines).value.doc.auto == st.doc.auto + AutoTokens(lines)
    decreases |lines|
  {
    if lines != [] {
      var next := Step(st, lines[0]).value;
      StepAuto(st, lines[0]);
      RunAuto(next, lines[1..]);
      assert Run(st, lines) == Run(next, lines[1..]);
      var a, h, rest := st.doc.auto, LineAuto(lines[0]), AutoTokens(lines[1..]);
      assert AutoTokens(lines) == h + rest;
      assert (a + h) + rest == a + (h + rest);
    }
  }

  /** A parsed file's `auto` list is the concatenation of its `auto` lines' names. */
  lemma ParsedAuto(contents: string)
    requires Parse(contents).Ok?
    ensures Parse(contents).value.auto == AutoTokens(Split(contents, '\n'))
  {
    var lines := Split(contents, '\n');
    RunAuto(Start, lines);
    assert Parse(contents).value == Run(Start, lines).value.doc;
    assert Start.doc.auto + AutoTokens(lines) == AutoTokens(lines);
  }

  // ---------------------------------------------------------------------------
  // Grammar errors

  /** With no block open, the first significant line decides: an option line there
      raises "Not in a stanza". */
  lemma {:induction false} OptionWithoutBlock(st: State, lines: seq<string>, k: nat)
    requires st.open.None?
    requires k < |lines|
    requires forall i :: 0 <= i < k ==> !Significant(Strip(lines[i]))
    requires Significant(Strip(lines[k])) && !IsOpener(Strip(lines[k]))
    ensures Run(st, lines) == Err(NotInStanza)
    decreases k
  {
    if k > 0 {
      assert !Significant(Strip(lines[0]));
      OptionWithoutBlock(st, lines[1..], k - 1);
    }
  }

  /** An option line directly after an `auto` line (comments and blank lines aside)
      raises "Not in a stanza", whatever came before: `auto` closes the open block. */
  lemma OptionAfterAuto(before: seq<string>, autoLine: string, after: seq<string>, k: nat)
    requires Run(Start, before).Ok?
    requires var l := Strip(autoLine); Significant(l) && IsOpener(l) && Split(l, ' ')[0] == "auto"
    requires k < |after|
    requires forall i :: 0 <= i < k ==> !Significant(Strip(after[i]))
    requires Significant(Strip(after[k])) && !IsOpener(Strip(after[k]))
    ensures Run(Start, before + [autoLine] + after) == Err(NotInStanza)
  {
    RunAppend(Start, before + [autoLine], after);
    RunAppend(Start, before, [autoLine]);
    var st := Step(Run(Start, before).value, autoLine).value;
    assert st.open.None?;
    OptionWithoutBlock(st, after, k);
  }

  /** An option line before any opener raises "Not in a stanza". */
  lemma OptionFirst(lines: seq<string>, k: nat)
    requires k < |lines|
    requires forall i :: 0 <= i < k ==> !Significant(Strip(lines[i]))
    requires Significant(Strip(lines[k])) && !IsOpener(Strip(lines[k]))
    ensures Run(Start, lines) == Err(NotInStanza)
  {
    OptionWithoutBlock(Start, lines, k);
  }

  // ---------------------------------------------------------------------------
  // Blocks

  /** An opener other than `auto` starts the block its key names afresh, holding just the
      stripped opener and replacing any earlier block under that key; every other block
      and the `auto` list stay as they were, and `p` moves to the new block. */
  lemma StepOpener(st: State, raw: string, kind': string, key': string)
    requires Significant(Strip(raw)) && IsOpener(Strip(raw))
    requires var parts := Split(Strip(raw), ' '); parts[0] != "auto" && |parts| >= 2
    ensures var line := Strip(raw); var parts := Split(line, ' '); var key := KeyOf(parts);
      && Step(st, raw).Ok?
      && Step(st, raw).value.open == Some((parts[0], key))
      && Step(st, raw).value.doc.auto == st.doc.auto
      && BlockOf(Step(st, raw).value.doc.stanzas, kind', key') ==
         if kind' == parts[0] && key' == key then Some([line]) else BlockOf(st.doc.stanzas, kind', key')
  {
    var line := Strip(raw);
    var parts := Split(line, ' ');
    BlockOfPutBlock(st.doc.stanzas, parts[0], KeyOf(parts), [line], kind', key');
  }

  /** Any other significant line goes, stripped and behind the indent, at the end of the
      open block; nothing else changes. */
  lemma StepOption(st: State, raw: string, kind': string, key': string)
    requires Significant(Strip(raw)) && !IsOpener(Strip(raw)) && st.open.Some?
    ensures var at := st.open.value;
      && Step(st, raw).Ok?
      && Step(st, raw).value.open == st.open
      && Step(st, raw).value.doc.auto == st.doc.auto
      && BlockOf(Step(st, raw).value.doc.stanzas, kind', key') ==
         if kind' == at.0 && key' == at.1 then Some(BlockOf(st.doc.stanzas, at.0, at.1).GetOr([]) + [Indent + Strip(raw)])
         else BlockOf(st.doc.stanzas, kind', key')
  {
    var at := st.open.value;
    BlockOfPutBlock(st.doc.stanzas, at.0, at.1, BlockOf(st.doc.stanzas, at.0, at.1).GetOr([]) + [Indent + Strip(raw)], kind', key');
  }

  // ---------------------------------------------------------------------------
  // The shape of a parsed document

  /** An `auto` name as the parser produces it: a token of a line split on spaces. */
  predicate NameOk(n: string) {
    ' ' !in n && '\n' !in n
  }

  /** The `auto` list of a parsed file: each line's last token ends its stripped line,
      so the last name is non-empty and does not end in whitespace. */
  predicate AutoOk(a: seq<string>) {
    && (forall i :: 0 <= i < |a| ==> NameOk(a[i]))
    && (a != [] ==> a[|a| - 1] != "" && !IsSpace(a[|a| - 1][|a[|a| - 1]| - 1]))
  }

  /** Line 0 of a parsed block: the stripped opener it was keyed by. */
  predicate HeaderOk(kind: string, key: string, line: string) {
    && '\n' !in line && IsStripped(line) && Significant(line) && IsOpener(line)
    && var parts := Split(line, ' '); |parts| >= 2 && parts[0] == kind && KeyOf(parts) == key
  }

  /** A later line of a parsed block: a stripped option line behind the indent. */
  predicate OptionOk(line: string) {
    && |line| >= 2 && line[..2] == Indent
    && var body := line[2..]; '\n' !in body && IsStripped(body) && Significant(body) && !IsOpener(body)
  }

  predicate BlockOk(kind: string, key: string, lines: Lines) {
    |lines| >= 1 && HeaderOk(kind, key, lines[0]) && forall i :: 1 <= i < |lines| ==> OptionOk(lines[i])
  }

  predicate KindOk(kind: string, blocks: Blocks) {
    kind != "auto" && blocks != [] && Unique(blocks) &&
    forall i :: 0 <= i < |blocks| ==> BlockOk(kind, blocks[i].0, blocks[i].1)
  }

  /** The documents the parser produces. */
  predicate WellFormed(d: Document) {
    AutoOk(d.auto) && Unique(d.stanzas) &&
    forall i :: 0 <= i < |d.stanzas| ==> KindOk(d.stanzas[i].0, d.stanzas[i].1)
  }

  /** A parser position inside a well-formed document, whose open block exists. */
  predicate StateOk(st: State) {
    WellFormed(st.doc) && (st.open.Some? ==> BlockOf(st.doc.stanzas, st.open.value.0, st.open.value.1).Some?)
  }

  lemma TableOk(d: Document, kind: string)
    requires WellFormed(d)
    ensures Unique(TableOf(d.stanzas, kind))
    ensures forall i :: 0 <= i < |TableOf(d.stanzas, kind)| ==>
      BlockOk(kind, TableOf(d.stanzas, kind)[i].0, TableOf(d.stanzas, kind)[i].1)
  {
    var g := Get(d.stanzas, kind);
    if g.Some? {
      var i :| 0 <= i < |d.stanzas| && d.stanzas[i] == (kind, g.value);
      assert KindOk(d.stanzas[i].0, d.stanzas[i].1);
    }
  }

  /** A block found in a well-formed document has the parsed shape. */
  lemma BlockOfOk(d: Document, kind: string, key: string)
    requires WellFormed(d) && BlockOf(d.stanzas, kind, key).Some?
    ensures BlockOk(kind, key, BlockOf(d.stanzas, kind, key).value)
  {
    TableOk(d, kind);
    var t := TableOf(d.stanzas, kind);
    var j :| 0 <= j < |t| && t[j] == (key, BlockOf(d.stanzas, kind, key).value);
  }

  /** Assigning a well-shaped block keeps a document well formed. */
  lemma PutBlockOk(d: Document, kind: string, key: string, lines: Lines)
    requires WellFormed(d) && kind != "auto" && BlockOk(kind, key, lines)
    ensures WellFormed(d.(stanzas := PutBlock(d.stanzas, kind, key, lines)))
  {
    var t := TableOf(d.stanzas, kind);
    TableOk(d, kind);
    var t' := Put(t, key, lines);
    PutUnique(t, key, lines);
    PutElems(t, key, lines);
    assert KindOk(kind, t') by {
      forall i | 0 <= i < |t'| ensures BlockOk(kind, t'[i].0, t'[i].1) {
        if t'[i] != (key, lines) {
          var j :| 0 <= j < |t| && t[j] == t'[i];
        }
      }
    }
    var s' := Put(d.stanzas, kind, t');
    PutUnique(d.stanzas, kind, t');
    PutElems(d.stanzas, kind, t');
    forall i | 0 <= i < |s'| ensures KindOk(s'[i].0, s'[i].1) {
      if s'[i] != (kind, t') {
        var j :| 0 <= j < |d.stanzas| && d.stanzas[j] == s'[i];
      }
    }
  }

  /** The tokens of a stripped auto line keep the `auto` list in its parsed shape. */
  lemma AutoTokensOk(a: seq<string>, line: string)
    requires AutoOk(a) && IsStripped(line) && line != "" && '\n' !in line
    ensures AutoOk(a + Split(line, ' ')[1..])
  {
    TokensOk(line);
    AppendNames(a, Split(line, ' ')[1..]);
  }

  /** The tokens after the first of a stripped line hold no space or newline, and the
      last of them, if any, ends the line. */
  lemma TokensOk(line: string)
    requires IsStripped(line) && line != "" && '\n' !in line
    ensures var b := Split(line, ' ')[1..];
      && (forall i :: 0 <= i < |b| ==> NameOk(b[i]))
      && (b != [] ==> b[|b| - 1] != "" && !IsSpace(b[|b| - 1][|b[|b| - 1]| - 1]))
  {
    var parts := Split(line, ' ');
    JoinSplit(line, ' ');
    SplitPieces(line, ' ');
    JoinOmits(parts, " ", '\n');
    LastTokenOfStripped(line);
    var b := parts[1..];
    forall i | 0 <= i < |b| ensures NameOk(b[i]) {
      assert b[i] == parts[i + 1];
    }
    if b != [] {
      assert b[|b| - 1] == parts[|parts| - 1];
    }
  }

  lemma AppendNames(a: seq<string>, b: seq<string>)
    requires AutoOk(a)
    requires forall i :: 0 <= i < |b| ==> NameOk(b[i])
    requires b != [] ==> b[|b| - 1] != "" && !IsSpace(b[|b| - 1][|b[|b| - 1]| - 1])
    ensures AutoOk(a + b)
  {
    var c := a + b;
    forall i | 0 <= i < |c| ensures NameOk(c[i]) {
      if i >= |a| {
        assert c[i] == b[i - |a|];
      }
    }
    if b == [] {
      assert c == a;
    } else {
      assert c[|c| - 1] == b[|b| - 1];
    }
  }

  lemma OpenerOk(st: State, line: string)
    requires StateOk(st) && '\n' !in line && IsStripped(line) && Significant(line) && IsOpener(line)
    requires var parts := Split(line, ' '); parts[0] != "auto" && |parts| >= 2
    ensures var parts := Split(line, ' '); var key := KeyOf(parts);
      StateOk(State(st.doc.(stanzas := PutBlock(st.doc.stanzas, parts[0], key, [line])), Some((parts[0], key))))
  {
    var parts := Split(line, ' ');
    var key := KeyOf(parts);
    PutBlockOk(st.doc, parts[0], key, [line]);
    BlockOfPutBlock(st.doc.stanzas, parts[0], key, [line], parts[0], key);
  }

  lemma OptionLineOk(st: State, line: string)
    requires StateOk(st) && st.open.Some?
    requires '\n' !in line && IsStripped(line) && Significant(line) && !IsOpener(line)
    ensures var at := st.open.value;
      StateOk(State(st.doc.(stanzas := AppendLine(st.doc.stanzas, at.0, at.1, Indent + line)), st.open))
  {
    var at := st.open.value;
    var ls := BlockOf(st.doc.stanzas, at.0, at.1).value;
    BlockOfOk(st.doc, at.0, at.1);
    assert (Indent + line)[2..] == line;
    assert at.0 != "auto" by {
      assert Get(st.doc.stanzas, at.0).Some?;
      var j :| 0 <= j < |st.doc.stanzas| && st.doc.stanzas[j].0 == at.0;
    }
    PutBlockOk(st.doc, at.0, at.1, ls + [Indent + line]);
    BlockOfPutBlock(st.doc.stanzas, at.0, at.1, ls + [Indent + line], at.0, at.1);
  }

  /** Every step of a parse keeps the position well formed. */
  lemma StepOk(st: State, raw: string)
    requires StateOk(st) && '\n' !in raw && Step(st, raw).Ok?
    ensures StateOk(Step(st, raw).value)
  {
    var line := Strip(raw);
    StripKeepsOut(raw, '\n');
    if Significant(line) {
      if IsOpener(line) {
        if Split(line, ' ')[0] == "auto" {
          AutoTokensOk(st.doc.auto, line);
        } else {
          OpenerOk(st, line);
        }
      } else {
        OptionLineOk(st, line);
      }
    }
  }

  lemma {:induction false} RunOk(st: State, lines: seq<string>)
    requires StateOk(st) && Run(st, lines).Ok?
    requires forall i :: 0 <= i < |lines| ==> '\n' !in lines[i]
    ensures StateOk(Run(st, lines).value)
    decreases |lines|
  {
    if lines != [] {
      StepOk(st, lines[0]);
      RunOk(Step(st, lines[0]).value, lines[1..]);
    }
  }

  /** Everything the parser returns is well formed. */
  lemma ParseWellFormed(contents: string)
    requires Parse(contents).Ok?
    ensures WellFormed(Parse(contents).value)
  {
    SplitPieces(contents, '\n');
    RunOk(Start, Split(contents, '\n'));
  }
}
