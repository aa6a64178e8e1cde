/** A document `build_interface` can write that its parser does not read back: an
    empty option value. It shows why the read-back and repeat lemmas of `Steps` need a
    well-formed document. */
module ReadBack {
  import opened Outcomes
  import opened Text
  import opened Assoc
  import opened Documents
  import opened Parser
  import opened Stanza
  import opened Serializer
  import opened Reconciler
  import Options

  /** A step over an opener line, once its stripped form and words are known. */
  lemma StepOpens(st: State, raw: string, line: string, parts: seq<string>)
    requires Strip(raw) == line && Significant(line) && IsOpener(line)
    requires Split(line, ' ') == parts && |parts| >= 2 && parts[0] != "auto"
    ensures Step(st, raw) ==
            Ok(State(st.doc.(stanzas := PutBlock(st.doc.stanzas, parts[0], KeyOf(parts), [line])), Some((parts[0], KeyOf(parts)))))
  {
  }

  /** A step over an option line inside an open block, once its stripped form is known. */
  lemma StepAppends(st: State, raw: string, line: string)
    requires Strip(raw) == line && Significant(line) && !IsOpener(line) && st.open.Some?
    ensures Step(st, raw) ==
            Ok(State(st.doc.(stanzas := AppendLine(st.doc.stanzas, st.open.value.0, st.open.value.1, Indent + line)), st.open))
  {
  }

  /** A mapping block with one leftover key whose value is empty. */
  lemma EmptyValueLines()
    ensures MappingBlock("m", [("x", Scalar(""))]) == ["mapping m", "  x "]
  {
    var s: Settings := [("x", Scalar(""))];
    assert Options.MappingOptions[..1] == ["script"] && Options.MappingOptions[..0] == [];
    assert RemoveAll(s, Options.MappingOptions) == s;
    assert OrderedLines(s, Options.MappingOptions) == [];
    assert [""][1..] == [];
    assert OptionLine("x", "") == "  x ";
    assert LeftoverLines(s) == KeyLines("x", [""]) == ["  x "];
    assert "mapping " + "m" == "mapping m";
    assert StanzaOf("mapping m", s, Options.MappingOptions) == ["mapping m"] + [] + ["  x "];
  }

  /** The document holding that block is not one the parser produces: the option
      line's body `"x "` ends in a space. */
  lemma EmptyValueNotParsed()
    ensures !WellFormed(Document([], [("mapping", [("m", ["mapping m", "  x "])])]))
  {
    var block: Lines := ["mapping m", "  x "];
    var body := block[1][2..];
    assert body == "x " && !IsStripped(body);
    assert !BlockOk("mapping", "m", block);
    var blocks: Blocks := [("m", block)];
    assert !KindOk("mapping", blocks) by { assert blocks[0] == ("m", block); }
    var d := Document([], [("mapping", blocks)]);
    assert d.stanzas[0] == ("mapping", blocks);
  }

  /** Why `Steps.BuildRepeatFresh` and `Steps.BuildWrites` need a well-formed
      document: a leftover key with an empty value renders as the line `"  x "`, whose
      body ends in a space, so the document reconciled on a missing file is not one
      the parser can produce. `EmptyValueRereads` shows the file written for it reading back differently. */
  lemma EmptyValueBlock()
    ensures var o := Reconcile(Empty, Mapping, "m", true, [("x", Scalar(""))]);
      && o == Ok(Outcome(Document([], [("mapping", [("m", ["mapping m", "  x "])])]), ["mapping m", "  x "], true))
      && !WellFormed(o.value.doc)
  {
    EmptyValueLines();
    EmptyValueNotParsed();
  }

  /** The text written for that document reads as its two lines and two blank ones. */
  lemma EmptyValueText()
    ensures Split(Render(Document([], [("mapping", [("m", ["mapping m", "  x "])])])), '\n') ==
            ["mapping m", "  x ", "", ""]
  {
    var block: Lines := ["mapping m", "  x "];
    var blocks: Blocks := [("m", block)];
    var stanzas: Table<Blocks> := [("mapping", blocks)];
    assert blocks[..0] == [] && stanzas[..0] == [];
    assert AutoText([]) == "";
    assert BlocksText(blocks) == "" + Join(block, "\n") + "\n\n";
    assert StanzasText(stanzas) == "" + BlocksText(blocks);
    JoinNewlines(block);
    UnlinesAppend(block, [""]);
    assert Unlines([""]) == "\n";
    calc {
      Render(Document([], stanzas));
      Join(block, "\n") + "\n" + "\n";
      Unlines(block) + Unlines([""]);
      Unlines(block + [""]);
    }
    SplitUnlines(block + [""]);
    assert block + [""] + [""] == ["mapping m", "  x ", "", ""];
  }

  /** The first line read back opens the block `m`. */
  lemma EmptyValueOpener()
    ensures Step(Start, "mapping m") ==
            Ok(State(Document([], [("mapping", [("m", ["mapping m"])])]), Some(("mapping", "m"))))
  {
    StripStripped("mapping m");
    EmptyValueHeaderWords();
    assert IsOpener("mapping m") by { assert "mapping m"[..7] == "mapping"; }
    StepOpens(Start, "mapping m", "mapping m", ["mapping", "m"]);
    assert KeyOf(["mapping", "m"]) == "m";
    assert PutBlock([], "mapping", "m", ["mapping m"]) == [("mapping", [("m", ["mapping m"])])];
  }

  /** The words of the header line. */
  lemma EmptyValueHeaderWords()
    ensures Split("mapping m", ' ') == ["mapping", "m"]
  {
    SplitAt("mapping", ' ', "m");
    SplitNone("m", ' ');
    assert "mapping" + [' '] + "m" == "mapping m";
  }

  /** Stripping an indented token with a trailing space leaves the token. */
  lemma StripPadded(t: string)
    requires t != [] && IsStripped(t)
    ensures Strip("  " + t + " ") == t
  {
    assert "  " + t + " " == "  " + (t + " ");
    StripIndentLeft(t + " ");
    StripTrailingSpace(t);
  }

  /** The two-space indent is stripped from the left. */
  lemma StripIndentLeft(u: string)
    requires u != [] && !IsSpace(u[0])
    ensures StripLeft("  " + u) == u
  {
    StripLeftDrop("  " + u, 2);
    assert ("  " + u)[2..] == u;
  }

  /** A trailing space is stripped from the right. */
  lemma StripTrailingSpace(t: string)
    requires IsStripped(t)
    ensures StripRight(t + " ") == t
  {
    var u := t + " ";
    assert u[..|u| - 1] == t;
    StripBothStripped(t);
  }

  /** `"  x ".strip()`, and the stripped line is an option line. */
  lemma EmptyValueStrip()
    ensures Strip("  x ") == "x" && Significant("x") && !IsOpener("x")
  {
    StripPadded("x");
    assert "  " + "x" + " " == "  x ";
  }

  /** Appending the read-back option line to the open block `m`. */
  lemma EmptyValueAppend()
    ensures AppendLine([("mapping", [("m", ["mapping m"])])], "mapping", "m", Indent + "x") ==
            [("mapping", [("m", ["mapping m", "  x"])])]
  {
    var stanzas: Table<Blocks> := [("mapping", [("m", ["mapping m"])])];
    var table: Blocks := [("m", ["mapping m"])];
    assert Indent + "x" == "  x";
    assert TableOf(stanzas, "mapping") == table;
    assert BlockOf(stanzas, "mapping", "m") == Some(["mapping m"]);
    assert table[1..] == [] && stanzas[1..] == [];
    var lines: Lines := ["mapping m", "  x"];
    assert ["mapping m"] + ["  x"] == lines;
    var inner := Put(table, "m", lines);
    assert inner == [("m", lines)] + table[1..] == [("m", lines)];
    assert PutBlock(stanzas, "mapping", "m", lines) == Put(stanzas, "mapping", inner);
    assert Put(stanzas, "mapping", inner) == [("mapping", inner)] + stanzas[1..];
  }

  /** The second line read back loses its trailing space. */
  lemma EmptyValueOption()
    ensures Step(State(Document([], [("mapping", [("m", ["mapping m"])])]), Some(("mapping", "m"))), "  x ") ==
            Ok(State(Document([], [("mapping", [("m", ["mapping m", "  x"])])]), Some(("mapping", "m"))))
  {
    EmptyValueStrip();
    StepAppends(State(Document([], [("mapping", [("m", ["mapping m"])])]), Some(("mapping", "m"))), "  x ", "x");
    EmptyValueAppend();
  }

  /** The file written for `EmptyValueBlock`'s document parses back with the option line
      stripped to `"  x"`. A second build on that file therefore finds a different block,
      sets `sync` again, snapshots the file it wrote itself and rewrites it. */
  lemma EmptyValueRereads()
    ensures Parse(Render(Document([], [("mapping", [("m", ["mapping m", "  x "])])]))) ==
            Ok(Document([], [("mapping", [("m", ["mapping m", "  x"])])]))
  {
    EmptyValueText();
    EmptyValueOpener();
    EmptyValueOption();
    var st1 := State(Document([], [("mapping", [("m", ["mapping m"])])]), Some(("mapping", "m")));
    var st2 := State(Document([], [("mapping", [("m", ["mapping m", "  x"])])]), Some(("mapping", "m")));
    RunCons(Start, "mapping m", ["  x ", "", ""], st1);
    RunCons(st1, "  x ", ["", ""], st2);
    RunBlanks(st2);
  }

  /** A run is its first step followed by the rest. */
  lemma RunCons(st: State, line: string, rest: seq<string>, next: State)
    requires Step(st, line) == Ok(next)
    ensures Run(st, [line] + rest) == Run(next, rest)
  {
    assert ([line] + rest)[1..] == rest;
  }

  /** Blank lines leave the parser where it was. */
  lemma RunBlanks(st: State)
    ensures Run(st, ["", ""]) == Ok(st)
  {
    assert ["", ""][1..] == [""] && [""][1..] == [];
  }

  /** So repeating that build is not idempotent: reconciling the same settings against
      the document the written file parses to sets `sync` again, which makes the second
      `build_interface` snapshot the file and rewrite it. */
  lemma EmptyValueResyncs()
    ensures var o := Reconcile(Empty, Mapping, "m", true, [("x", Scalar(""))]);
      && o.Ok? && Parse(Render(o.value.doc)).Ok?
      && var o2 := Reconcile(Parse(Render(o.value.doc)).value, Mapping, "m", true, [("x", Scalar(""))]);
      o2.Ok? && o2.value.sync && o2.value.doc == o.value.doc
  {
    EmptyValueBlock();
    EmptyValueRereads();
    EmptyValueLines();
    var block: Lines := ["mapping m", "  x "];
    var read := Document([], [("mapping", [("m", ["mapping m", "  x"])])]);
    assert BlockOf(read.stanzas, "mapping", "m") == Some(["mapping m", "  x"]);
    assert ["mapping m", "  x"] != block by { assert block[1] != "  x"; }
    PutBlockTwice([], "mapping", "m", ["mapping m", "  x"], block);
  }
}
