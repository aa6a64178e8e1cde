/** `_write_file`: the text an in-memory document is written back as, and the proof
    that reading that text back gives the same document. */
module Serializer {
  import opened Outcomes
  import opened Text
  import opened Assoc
  import opened Documents
  import opened Parser

  /** `"auto %s\n\n"`, written only when the list is non-empty. */
  function AutoText(auto: seq<string>): string {
    if auto == [] then "" else "auto " + Join(auto, " ") + "\n\n"
  }

  /** Each block's lines joined by newlines, then a blank line. */
  function BlocksText(blocks: Blocks): string
    decreases |blocks|
  {
    if blocks == [] then ""
    else BlocksText(blocks[..|blocks| - 1]) + Join(blocks[|blocks| - 1].1, "\n") + "\n\n"
  }

  function StanzasText(stanzas: Table<Blocks>): string
    decreases |stanzas|
  {
    if stanzas == [] then ""
    else StanzasText(stanzas[..|stanzas| - 1]) + BlocksText(stanzas[|stanzas| - 1].1)
  }

  /** The whole file: the `auto` list first, then every kind's blocks in order. Block
      names are not written; a block's header line carries them. */
  function Render(d: Document): string {
    AutoText(d.auto) + StanzasText(d.stanzas)
  }

  /** The inner loop of `_write_file`, over one kind's blocks. */
  method WriteBlocks(out: string, blocks: Blocks) returns (out': string)
    ensures out' == out + BlocksText(blocks)
  {
    out' := out;
    var j := 0;
    assert blocks[..0] == [];
    while j < |blocks|
      invariant 0 <= j <= |blocks|
      invariant out' == out + BlocksText(blocks[..j])
    {
      ghost var before := BlocksText(blocks[..j]);
      assert blocks[..j + 1][..j] == blocks[..j];
      out' := out' + Join(blocks[j].1, "\n");
      out' := out' + "\n\n";
      assert out' == out + (before + Join(blocks[j].1, "\n") + "\n\n");
      j := j + 1;
    }
    assert blocks[..j] == blocks;
  }

  /** The loops of `_write_file`, producing the text it writes. */
  method Serialize(d: Document) returns (out: string)
    ensures out == Render(d)
  {
    out := "";
    if d.auto != [] {
      out := out + "auto " + Join(d.auto, " ") + "\n\n";
    }
    out := WriteStanzas(out, d.stanzas);
  }

  /** The outer loop of `_write_file`, over the kinds in order. */
  method WriteStanzas(out: string, stanzas: Table<Blocks>) returns (out': string)
    ensures out' == out + StanzasText(stanzas)
  {
    out' := out;
    var i := 0;
    assert stanzas[..0] == [];
    while i < |stanzas|
      invariant 0 <= i <= |stanzas|
      invariant out' == out + StanzasText(stanzas[..i])
    {
      ghost var before := StanzasText(stanzas[..i]);
      assert stanzas[..i + 1][..i] == stanzas[..i];
      out' := WriteBlocks(out', stanzas[i].1);
      assert out' == out + (before + BlocksText(stanzas[i].1));
      i := i + 1;
    }
    assert stanzas[..i] == stanzas;
  }

  // ---------------------------------------------------------------------------
  // The same text, line by line

  function AutoLines(auto: seq<string>): seq<string> {
    if auto == [] then [] else ["auto " + Join(auto, " "), ""]
  }

  function BlocksLines(blocks: Blocks): seq<string>
    decreases |blocks|
  {
    if blocks == [] then []
    else BlocksLines(blocks[..|blocks| - 1]) + (blocks[|blocks| - 1].1 + [""])
  }

  function StanzasLines(stanzas: Table<Blocks>): seq<string>
    decreases |stanzas|
  {
    if stanzas == [] then []
    else StanzasLines(stanzas[..|stanzas| - 1]) + BlocksLines(stanzas[|stanzas| - 1].1)
  }

  function RenderLines(d: Document): seq<string> {
    AutoLines(d.auto) + StanzasLines(d.stanzas)
  }

  predicate NoNewlines(ls: seq<string>) {
    forall i :: 0 <= i < |ls| ==> '\n' !in ls[i]
  }

  lemma NoNewlinesAppend(a: seq<string>, b: seq<string>)
    requires NoNewlines(a) && NoNewlines(b)
    ensures NoNewlines(a + b)
  {
    forall i | 0 <= i < |a + b| ensures '\n' !in (a + b)[i] {
      if i >= |a| {
        assert (a + b)[i] == b[i - |a|];
      }
    }
  }

  /** The blocks of a kind as text are the blocks as lines, each block ended by a blank
      line; this needs every block to have at least its header. */
  lemma {:induction false} BlocksTextLines(blocks: Blocks)
    requires forall i :: 0 <= i < |blocks| ==> blocks[i].1 != []
    ensures BlocksText(blocks) == Unlines(BlocksLines(blocks))
    ensures (forall i :: 0 <= i < |blocks| ==> NoNewlines(blocks[i].1)) ==> NoNewlines(BlocksLines(blocks))
    decreases |blocks|
  {
    if blocks != [] {
      var init := blocks[..|blocks| - 1];
      var b := blocks[|blocks| - 1].1;
      BlocksTextLines(init);
      UnlinesAppend(BlocksLines(init), b + [""]);
      UnlinesAppend(b, [""]);
      JoinNewlines(b);
      if forall i :: 0 <= i < |blocks| ==> NoNewlines(blocks[i].1) {
        assert forall i :: 0 <= i < |init| ==> init[i] == blocks[i];
        assert NoNewlines(b + [""]) by {
          assert NoNewlines(b) && NoNewlines([""]);
          NoNewlinesAppend(b, [""]);
        }
        NoNewlinesAppend(BlocksLines(init), b + [""]);
      }
    }
  }

  lemma {:induction false} StanzasTextLines(stanzas: Table<Blocks>)
    requires forall i, j :: 0 <= i < |stanzas| && 0 <= j < |stanzas[i].1| ==> stanzas[i].1[j].1 != []
    ensures StanzasText(stanzas) == Unlines(StanzasLines(stanzas))
    ensures (forall i, j :: 0 <= i < |stanzas| && 0 <= j < |stanzas[i].1| ==> NoNewlines(stanzas[i].1[j].1))
      ==> NoNewlines(StanzasLines(stanzas))
    decreases |stanzas|
  {
    if stanzas != [] {
      var init := stanzas[..|stanzas| - 1];
      var last := stanzas[|stanzas| - 1].1;
      assert forall i :: 0 <= i < |init| ==> init[i] == stanzas[i];
      StanzasTextLines(init);
      BlocksTextLines(last);
      UnlinesAppend(StanzasLines(init), BlocksLines(last));
      if forall i, j :: 0 <= i < |stanzas| && 0 <= j < |stanzas[i].1| ==> NoNewlines(stanzas[i].1[j].1) {
        NoNewlinesAppend(StanzasLines(init), BlocksLines(last));
      }
    }
  }

  lemma AutoLineShape(auto: seq<string>)
    requires AutoOk(auto) && auto != []
    ensures var line := "auto " + Join(auto, " ");
      '\n' !in line && IsStripped(line) && Significant(line) && IsOpener(line) &&
      Split(line, ' ') == ["auto"] + auto
  {
    var j := Join(auto, " ");
    var line := "auto " + j;
    JoinKeepsOut(auto, " ", '\n');
    JoinEnd(auto, " ");
    assert line[|line| - 1] == j[|j| - 1];
    assert line[..4] == "auto";
    assert line == "auto" + [' '] + j;
    SplitAt("auto", ' ', j);
    SplitJoin(auto, ' ');
  }

  /** A block the parser produces is non-empty and has no newline in any line. */
  lemma BlockLinesOk(kind: string, key: string, ls: Lines)
    requires BlockOk(kind, key, ls)
    ensures ls != [] && NoNewlines(ls)
  {
    forall k | 0 <= k < |ls| ensures '\n' !in ls[k] {
      if k >= 1 {
        assert OptionOk(ls[k]);
        assert ls[k] == ls[k][..2] + ls[k][2..];
      }
    }
  }

  lemma DocumentLinesOk(d: Document)
    requires WellFormed(d)
    ensures forall i, j :: 0 <= i < |d.stanzas| && 0 <= j < |d.stanzas[i].1| ==>
      d.stanzas[i].1[j].1 != [] && NoNewlines(d.stanzas[i].1[j].1)
  {
    forall i, j | 0 <= i < |d.stanzas| && 0 <= j < |d.stanzas[i].1|
      ensures d.stanzas[i].1[j].1 != [] && NoNewlines(d.stanzas[i].1[j].1)
    {
      assert KindOk(d.stanzas[i].0, d.stanzas[i].1);
      BlockLinesOk(d.stanzas[i].0, d.stanzas[i].1[j].0, d.stanzas[i].1[j].1);
    }
  }

  /** The file as text is the file as lines, and no line holds a newline. */
  lemma RenderIsLines(d: Document)
    requires WellFormed(d)
    ensures Render(d) == Unlines(RenderLines(d))
    ensures NoNewlines(RenderLines(d))
  {
    DocumentLinesOk(d);
    StanzasTextLines(d.stanzas);
    UnlinesAppend(AutoLines(d.auto), StanzasLines(d.stanzas));
    if d.auto != [] {
      AutoLineShape(d.auto);
      var line := "auto " + Join(d.auto, " ");
      assert AutoText(d.auto) == Unlines(AutoLines(d.auto)) by {
        assert Unlines([""]) == "\n";
        assert Unlines([line, ""]) == line + "\n" + Unlines([""]);
      }
      assert NoNewlines(AutoLines(d.auto));
      NoNewlinesAppend(AutoLines(d.auto), StanzasLines(d.stanzas));
    }
  }

  // ---------------------------------------------------------------------------
  // Reading the lines back

  /** One option line lands at the end of the block just opened. */
  lemma OptionStep(a: seq<string>, s: Table<Blocks>, kind: string, key: string,
                   t: Blocks, pre: Lines, o: string)
    requires key !in Keys(t) && OptionOk(o)
    ensures Step(State(Document(a, Put(s, kind, t + [(key, pre)])), Some((kind, key))), o)
         == Ok(State(Document(a, Put(s, kind, t + [(key, pre + [o])])), Some((kind, key))))
  {
    var x := Put(s, kind, t + [(key, pre)]);
    assert o == Indent + o[2..];
    StripIndented(o[2..]);
    GetPut(s, kind, t + [(key, pre)], kind);
    GetAppended(t, key, pre, key);
    assert BlockOf(x, kind, key) == Some(pre);
    PutAppended(t, key, pre, pre + [o]);
    PutPut(s, kind, t + [(key, pre)], t + [(key, pre + [o])]);
    assert AppendLine(x, kind, key, o) == Put(s, kind, t + [(key, pre + [o])]);
  }

  /** Option lines land, in order, at the end of the block just opened. */
  lemma {:induction false} OptionsRun(a: seq<string>, s: Table<Blocks>, kind: string, key: string,
                                      t: Blocks, pre: Lines, os: seq<string>)
    requires key !in Keys(t)
    requires forall i :: 0 <= i < |os| ==> OptionOk(os[i])
    ensures Run(State(Document(a, Put(s, kind, t + [(key, pre)])), Some((kind, key))), os)
         == Ok(State(Document(a, Put(s, kind, t + [(key, pre + os)])), Some((kind, key))))
    decreases |os|
  {
    if os == [] {
      assert pre + os == pre;
    } else {
      OptionStep(a, s, kind, key, t, pre, os[0]);
      assert pre + [os[0]] + os[1..] == pre + os;
      OptionsRun(a, s, kind, key, t, pre + [os[0]], os[1..]);
    }
  }

  /** A block's header opens the block under its key with the header as its only line. */
  lemma HeaderStep(st: State, kind: string, key: string, h: string)
    requires kind != "auto" && HeaderOk(kind, key, h)
    ensures Step(st, h) == Ok(State(st.doc.(stanzas := PutBlock(st.doc.stanzas, kind, key, [h])), Some((kind, key))))
  {
    StripStripped(h);
  }

  /** A blank line changes nothing. */
  lemma BlankRun(st: State)
    ensures Run(st, [""]) == Ok(st)
  {
    StripStripped("");
    assert !Significant(Strip(""));
    assert Step(st, "") == Ok(st);
    assert [""][1..] == [];
  }

  /** A whole block, followed by its blank line, is added under its key. */
  lemma BlockRun(a: seq<string>, s: Table<Blocks>, open: Option<(string, string)>,
                 kind: string, key: string, ls: Lines, t: Blocks)
    requires TableOf(s, kind) == t && key !in Keys(t)
    requires kind != "auto" && BlockOk(kind, key, ls)
    ensures Run(State(Document(a, s), open), ls + [""])
         == Ok(State(Document(a, Put(s, kind, t + [(key, ls)])), Some((kind, key))))
  {
    var h := ls[0];
    var rest := ls[1..];
    assert [h] + rest == ls;
    var st0 := State(Document(a, s), open);
    HeaderStep(st0, kind, key, h);
    assert PutBlock(s, kind, key, [h]) == Put(s, kind, t + [(key, [h])]);
    var st1 := State(Document(a, Put(s, kind, t + [(key, [h])])), Some((kind, key)));
    assert Step(st0, h) == Ok(st1);
    assert ls + [""] == [h] + (rest + [""]);
    assert Run(st0, ls + [""]) == Run(st1, rest + [""]);
    RunAppend(st1, rest, [""]);
    assert forall i :: 0 <= i < |rest| ==> rest[i] == ls[i + 1];
    OptionsRun(a, s, kind, key, t, [h], rest);
    BlankRun(State(Document(a, Put(s, kind, t + [(key, ls)])), Some((kind, key))));
  }

  /** A kind's blocks are read back as that kind's table, appended after the kinds
      read so far. */
  lemma {:induction false} BlocksRun(a: seq<string>, p: Table<Blocks>, open: Option<(string, string)>,
                                     kind: string, blocks: Blocks)
    requires kind !in Keys(p) && KindOk(kind, blocks)
    ensures var r := Run(State(Document(a, p), open), BlocksLines(blocks));
      r.Ok? && r.value.doc == Document(a, Put(p, kind, blocks))
    decreases |blocks|
  {
    var init := blocks[..|blocks| - 1];
    var b := blocks[|blocks| - 1];
    var st := State(Document(a, p), open);
    SplitLast(blocks);
    assert BlocksLines(blocks) == BlocksLines(init) + (b.1 + [""]);
    RunAppend(st, BlocksLines(init), b.1 + [""]);
    if init == [] {
      assert Run(st, BlocksLines(init)) == Ok(st);
      FirstBlockRun(a, p, open, kind, blocks);
    } else {
      KindOkFront(kind, blocks);
      BlocksRun(a, p, open, kind, init);
      var st1 := Run(st, BlocksLines(init)).value;
      assert KindOk(kind, blocks) && BlockOk(kind, b.0, b.1);
      NextBlockRun(a, p, st1.open, kind, init, b.0, b.1);
      assert Run(st, BlocksLines(blocks)) == Run(State(Document(a, Put(p, kind, init)), st1.open), b.1 + [""]);
    }
  }

  /** The first block of a kind not yet read. */
  lemma FirstBlockRun(a: seq<string>, p: Table<Blocks>, open: Option<(string, string)>, kind: string, blocks: Blocks)
    requires kind !in Keys(p) && KindOk(kind, blocks) && |blocks| == 1
    ensures Run(State(Document(a, p), open), blocks[0].1 + [""])
         == Ok(State(Document(a, Put(p, kind, blocks)), Some((kind, blocks[0].0))))
  {
    assert TableOf(p, kind) == [];
    BlockRun(a, p, open, kind, blocks[0].0, blocks[0].1, []);
    assert [] + [(blocks[0].0, blocks[0].1)] == blocks;
  }

  /** Dropping a kind's last block keeps the rest well formed. */
  lemma KindOkFront(kind: string, blocks: Blocks)
    requires KindOk(kind, blocks) && |blocks| >= 2
    ensures KindOk(kind, blocks[..|blocks| - 1])
  {
    var init := blocks[..|blocks| - 1];
    assert forall i :: 0 <= i < |init| ==> init[i] == blocks[i];
  }

  /** One more block of a kind already being read. */
  lemma NextBlockRun(a: seq<string>, p: Table<Blocks>, open: Option<(string, string)>,
                     kind: string, init: Blocks, key: string, ls: Lines)
    requires key !in Keys(init) && kind != "auto" && BlockOk(kind, key, ls)
    ensures Run(State(Document(a, Put(p, kind, init)), open), ls + [""])
         == Ok(State(Document(a, Put(p, kind, init + [(key, ls)])), Some((kind, key))))
  {
    GetPut(p, kind, init, kind);
    BlockRun(a, Put(p, kind, init), open, kind, key, ls, init);
    PutPut(p, kind, init, init + [(key, ls)]);
  }

  lemma {:induction false} StanzasRun(a: seq<string>, open: Option<(string, string)>, stanzas: Table<Blocks>)
    requires Unique(stanzas)
    requires forall i :: 0 <= i < |stanzas| ==> KindOk(stanzas[i].0, stanzas[i].1)
    ensures var r := Run(State(Document(a, []), open), StanzasLines(stanzas));
      r.Ok? && r.value.doc == Document(a, stanzas)
    decreases |stanzas|
  {
    if stanzas != [] {
      var init := stanzas[..|stanzas| - 1];
      var last := stanzas[|stanzas| - 1];
      assert forall i :: 0 <= i < |init| ==> KindOk(init[i].0, init[i].1) by {
        assert forall i :: 0 <= i < |init| ==> init[i] == stanzas[i];
      }
      SplitLast(stanzas);
      StanzasRun(a, open, init);
      var st := State(Document(a, []), open);
      var st1 := Run(st, StanzasLines(init)).value;
      assert st1 == State(Document(a, init), st1.open);
      RunAppend(st, StanzasLines(init), BlocksLines(last.1));
      assert StanzasLines(stanzas) == StanzasLines(init) + BlocksLines(last.1);
      assert KindOk(last.0, last.1);
      BlocksRun(a, init, st1.open, last.0, last.1);
    }
  }

  /** The `auto` line and its blank line give the `auto` list. */
  lemma AutoRun(auto: seq<string>)
    requires AutoOk(auto) && auto != []
    ensures Run(Start, AutoLines(auto)) == Ok(State(Document(auto, []), None))
  {
    var line := "auto " + Join(auto, " ");
    var st1 := State(Document(auto, []), None);
    var ls := [line, ""];
    assert ls[0] == line && ls[1..] == [""];
    assert AutoLines(auto) == ls;
    AutoStep(auto);
    BlankRun(st1);
    assert Run(Start, ls) == Run(st1, [""]);
  }

  /** The `auto` line read at the start gives the list back and leaves no block open. */
  lemma AutoStep(auto: seq<string>)
    requires AutoOk(auto) && auto != []
    ensures Step(Start, "auto " + Join(auto, " ")) == Ok(State(Document(auto, []), None))
  {
    AutoLineShape(auto);
    var line := "auto " + Join(auto, " ");
    StripStripped(line);
    var parts := Split(line, ' ');
    assert parts[0] == "auto" && parts[1..] == auto;
    assert [] + auto == auto;
  }

  /** Reading the rendered lines of a well-formed document rebuilds it. */
  lemma RunRendered(d: Document)
    requires WellFormed(d)
    ensures Run(Start, RenderLines(d)).Ok? && Run(Start, RenderLines(d)).value.doc == d
  {
    RunAppend(Start, AutoLines(d.auto), StanzasLines(d.stanzas));
    if d.auto == [] {
      StanzasRun([], None, d.stanzas);
    } else {
      AutoRun(d.auto);
      StanzasRun(d.auto, None, d.stanzas);
    }
  }

  /** Writing a well-formed document and parsing the file gives the document back:
      every kind, block and line in its place, the `auto` list as one line. */
  lemma RoundTrip(d: Document)
    requires WellFormed(d)
    ensures Parse(Render(d)) == Ok(d)
  {
    var ls := RenderLines(d);
    RenderIsLines(d);
    SplitUnlines(ls);
    assert Split(Render(d), '\n') == ls + [""];
    RunRendered(d);
    var st := Run(Start, ls).value;
    RunAppend(Start, ls, [""]);
    BlankRun(st);
    assert Run(Start, ls + [""]) == Ok(st);
  }

  /** parse . write . parse == parse: a parsed file, written back, parses the same. */
  lemma ParseWriteParse(contents: string)
    requires Parse(contents).Ok?
    ensures Parse(Render(Parse(contents).value)) == Parse(contents)
  {
    ParseWellFormed(contents);
    RoundTrip(Parse(contents).value);
  }
}
